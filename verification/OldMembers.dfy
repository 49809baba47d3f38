/**
 What the three rewriting scripts make of any member at all, also of one no version of
 the crawler wrote: which they take for old, what they write for it, which they leave
 alone, and on which they raise.
 */
module OldMembers {
  import opened Options
  import opened JsonValues
  import opened Jobs
  import opened Text
  import opened Codec
  import opened Rewriting

  predicate Digit(c: char) {
    c in "0123456789"
  }

  ghost predicate Digits(s: string) {
    s != [] && forall i :: 0 <= i < |s| ==> Digit(s[i])
  }

  lemma {:induction false} DigitIs(c: char)
    ensures Digit(c) <==> IsDigit(c)
  {
    var all := "0123456789";
    if IsDigit(c) {
      assert all[c as int - '0' as int] == c;
    }
  }

  lemma {:induction false} DigitsAre(s: string)
    ensures Digits(s) <==> IsNumeral(s)
  {
    hide Digit, IsDigit;
    forall i | 0 <= i < |s| ensures Digit(s[i]) <==> IsDigit(s[i]) {
      DigitIs(s[i]);
    }
  }

  /** A head of digits, a colon, and the rest. */
  ghost predicate Counted(m: string, head: string, rest: string) {
    Digits(head) && m == head + [':'] + rest
  }

  /** The first script takes for old what begins with digits and a colon, and never raises on that. */
  lemma {:induction false} CounterScript(t: Tools, m: string)
    ensures FromCounter(t).isOld(m) == Ok(exists head, rest :: Counted(m, head, rest))
  {
    hide Number;
    if head, rest :| Counted(m, head, rest) {
      DigitsAre(head);
      assert forall i :: 0 <= i < |head| ==> head[i] != ':';
      IndexOfField(head, ':', rest);
      assert m[..|head|] == head;
    }
    if HasCounter(m) {
      var i := IndexOf(m, ':');
      DigitsAre(m[..i]);
      assert m == m[..i] + [':'] + m[i + 1..];
      assert Counted(m, m[..i], m[i + 1..]);
    }
  }

  /** It writes the time for the digits and a bar for the colon, and raises past the last year. */
  lemma {:induction false} CounterRewrites(t: Tools, head: string, rest: string)
    requires Digits(head)
    ensures IsNumeral(head)
    ensures FromCounter(t).rewrite(head + [':'] + rest) ==
            match t.iso(Number(head)) case Ok(ts) => Ok(Some(ts + ['|'] + rest)) case Raised => Raised
  {
    hide Number;
    DigitsAre(head);
    var m := head + [':'] + rest;
    assert forall i :: 0 <= i < |head| ==> head[i] != ':';
    IndexOfField(head, ':', rest);
    assert m[..|head|] == head && m[|head| + 1..] == rest;
  }

  /** The second takes for old whatever does not begin with two digits and a bar. */
  lemma {:induction false} TimeScript(t: Tools, m: string)
    ensures FromTime(t).isOld(m) == Ok(!exists d, e, rest: string :: Digit(d) && Digit(e) && m == [d, e, '|'] + rest)
  {
    hide Digit, IsDigit;
    if d, e, rest: string :| Digit(d) && Digit(e) && m == [d, e, '|'] + rest {
      DigitIs(d);
      DigitIs(e);
    }
    if HasDepth(m) {
      DigitIs(m[0]);
      DigitIs(m[1]);
      assert m == [m[0], m[1], '|'] + m[3..];
    }
  }

  /** The dictionary has depth `n`, none counting as 0 and booleans as numbers, and a known type. */
  ghost predicate Tells(fields: seq<(string, Json)>, n: int, code: nat) {
    && Get(fields, "depth") in {Some(Int(n))} + (if n == 0 then {None, Some(Bool(false))} else if n == 1 then {Some(Bool(true))} else {})
    && (Get(fields, "job_type"), code) in {(Some(Str("webfinger")), 10), (Some(Str("actor")), 20), (Some(Str("collection")), 30), (Some(Str("page")), 40)}
  }

  lemma {:induction false} TellsIs(fields: seq<(string, Json)>)
    ensures forall n, code: nat :: Tells(fields, n, code) <==> DepthIn(fields) == Some(n) && CodeIn(fields) == Some(code)
  {
    hide Get;
  }

  /** It needs a bar, and behind the first one a job it can read; the rest of the line is
      written anew with depth and type in front. */
  lemma {:induction false} TimeRewrites(t: Tools, ts: string, text: string)
    requires '|' !in ts
    ensures FromTime(t).rewrite(ts) == Raised
    ensures match t.spaced.loads(text)
            case Some(Obj(fields)) =>
              && (forall n, code: nat :: Tells(fields, n, code) ==>
                    FromTime(t).rewrite(ts + ['|'] + text) ==
                    Ok(Some(Join([Padded(Clamp(n), 10, 2), Padded(code, 10, 2), ts], '|', t.spaced.dumps(Obj(fields))))))
              && ((forall n, code: nat :: !Tells(fields, n, code)) ==> FromTime(t).rewrite(ts + ['|'] + text) == Raised)
            case _ => FromTime(t).rewrite(ts + ['|'] + text) == Raised
  {
    hide Padded, Join, Tells, DepthIn, CodeIn, Clamp;
    NoCut(ts, 1);
    SplitField(ts, '|', text, 1);
    assert Split(text, '|', 0) == [text];
    match t.spaced.loads(text)
    case Some(Obj(fields)) =>
      TellsIs(fields);
      if DepthIn(fields).Some? && CodeIn(fields).Some? {
        assert Tells(fields, DepthIn(fields).value, CodeIn(fields).value);
      }
    case _ =>
  }

  lemma {:induction false} NoCut(s: string, max: nat)
    requires '|' !in s
    ensures Split(s, '|', max) == [s]
  {
    assert IndexOf(s, '|') == |s|;
  }

  /** The third raises on fewer than two bars, and takes for old what has a T after the second. */
  lemma {:induction false} CrcScript(t: Tools, a: string, b: string, c: string, text: string)
    requires '|' !in a && '|' !in b && '|' !in c
    ensures FromDepth(t).isOld(a) == Raised && FromDepth(t).isOld(a + ['|'] + b) == Raised
    ensures FromDepth(t).isOld(a + ['|'] + b + ['|'] + c) == Ok('T' in c)
    ensures FromDepth(t).isOld(Join([a, b, c], '|', text)) == Ok('T' in c)
  {
    hide Split, Join, IndexOf;
    Cuts(a, b, c, text);
  }

  /** It raises without a third bar or on a text that is no JSON, leaves alone what names no
      job, and otherwise adds the checksum of the id. */
  lemma {:induction false} CrcRewrites(t: Tools, a: string, b: string, c: string, text: string)
    requires '|' !in a && '|' !in b && '|' !in c
    ensures FromDepth(t).rewrite(a + ['|'] + b + ['|'] + c) == Raised
    ensures FromDepth(t).rewrite(Join([a, b, c], '|', text)) ==
            match t.compact.loads(text)
            case None => Raised
            case Some(job) =>
              match JobId(job, t.show)
              case None => Ok(None)
              case Some(id) => Ok(Some(Join([a, b, Padded(t.crc(id), 16, 8), c], '|', text)))
  {
    hide Padded, Split, Join, IndexOf;
    Cuts(a, b, c, text);
  }

  lemma {:induction false} Cuts(a: string, b: string, c: string, text: string)
    requires '|' !in a && '|' !in b && '|' !in c
    ensures Split(a, '|', 3) == [a] && Split(a + ['|'] + b, '|', 3) == [a, b]
    ensures Split(a + ['|'] + b + ['|'] + c, '|', 3) == [a, b, c]
    ensures Split(Join([a, b, c], '|', text), '|', 3) == [a, b, c, text]
  {
    hide Join, Split, IndexOf;
    NoCut(a, 3);
    NoCut(b, 2);
    NoCut(c, 1);
    SplitField(a, '|', b, 3);
    SplitField(a, '|', b + ['|'] + c, 3);
    SplitField(b, '|', c, 2);
    assert a + ['|'] + b + ['|'] + c == a + ['|'] + (b + ['|'] + c);
    SplitJoin([a, b, c], '|', text);
    assert [a, b, c] + [text] == [a, b, c, text];
  }
}
