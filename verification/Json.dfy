/**
 JSON values as `orjson.loads` returns them, with the Python operations the
 crawler applies to a fetched document.
 */
module JsonValues {
  import opened Options

  /** `Float` stands for any number with a fraction; a parsed object has
      distinct keys, kept in document order. */
  datatype Json =
    | Null
    | Bool(b: bool)
    | Int(n: int)
    | Float(r: real)
    | Str(s: string)
    | Arr(items: seq<Json>)
    | Obj(fields: seq<(string, Json)>)

  /** `fields.get(key)`, with `None` for a missing key. */
  function Get(fields: seq<(string, Json)>, key: string): Option<Json> {
    if fields == [] then None
    else if fields[0].0 == key then Some(fields[0].1)
    else Get(fields[1..], key)
  }

  lemma {:induction false} GetAt(fields: seq<(string, Json)>, i: nat)
    requires i < |fields|
    requires forall k :: 0 <= k < i ==> fields[k].0 != fields[i].0
    ensures Get(fields, fields[i].0) == Some(fields[i].1)
  {
    if i > 0 {
      GetAt(fields[1..], i - 1);
    }
  }

  lemma {:induction false} GetMissing(fields: seq<(string, Json)>, key: string)
    ensures Get(fields, key) == None <==> forall i :: 0 <= i < |fields| ==> fields[i].0 != key
  {
    if fields != [] && fields[0].0 != key {
      GetMissing(fields[1..], key);
      assert forall i :: 0 < i < |fields| ==> fields[i] == fields[1..][i - 1];
    }
  }

  /** The value under `key` when it is a string. */
  function GetStr(fields: seq<(string, Json)>, key: string): Option<string> {
    match Get(fields, key)
    case Some(Str(s)) => Some(s)
    case _ => None
  }

  /** Python's truth value. */
  predicate Truthy(j: Json) {
    match j
    case Null => false
    case Bool(b) => b
    case Int(n) => n != 0
    case Float(r) => r != 0.0
    case Str(s) => s != ""
    case Arr(items) => items != []
    case Obj(fields) => fields != []
  }

  /** The values that count as false. */
  lemma {:induction false} FalsyValues(j: Json)
    ensures !Truthy(j) <==> j in {Null, Bool(false), Int(0), Float(0.0), Str(""), Arr([]), Obj([])}
  {
  }

  /** `isinstance(j, int) and j == 0`; Python counts `False` as the integer 0. */
  predicate IsIntZero(j: Json) {
    j == Int(0) || j == Bool(false)
  }

  /** What `for item in j` yields, or `Raised` when `j` is not iterable: a
      string yields its characters and an object yields its keys. */
  function Iterate(j: Json): Result<seq<Json>> {
    match j
    case Arr(items) => Ok(items)
    case Str(s) => Ok(seq(|s|, i requires 0 <= i < |s| => Str([s[i]])))
    case Obj(fields) => Ok(seq(|fields|, i requires 0 <= i < |fields| => Str(fields[i].0)))
    case _ => Raised
  }
}
