/**
 The three rewrites of the queue, oldest first (fixup/fixup_queue.py,
 fixup/prioritise_queue_by_depth_and_job_type.py, fixup/fixup_crc_tiebreak.py):
 `counter:job`, `ts|job`, `depth|type|ts|job`, `depth|type|crc|ts|job`.

 `iso_utc`, `crc32`, `str` and the two JSON writers are parameters. Digits are ASCII.
 */
module Rewriting {
  import opened Options
  import opened JsonValues
  import opened Jobs
  import opened Text
  import opened Codec
  import opened Migrating

  /** `iso` raises beyond the year 9999; `compact` is `orjson`, `spaced` is `json`. */
  datatype Tools = Tools(iso: nat -> Result<string>, crc: string -> nat, show: Json -> string, compact: JsonText, spaced: JsonText)

  /** `2024-06-15T12:00:00.000000Z` */
  predicate IsoShape(ts: string) {
    TimestampText(ts) && ts[4] == '-' && ts[10] == 'T' && (forall i :: 0 <= i < 4 ==> IsDigit(ts[i]))
  }

  /** What the scripts rely on: timestamps of one shape that grow with time, 32-bit
      checksums, and two JSON libraries that read the jobs either wrote. */
  ghost predicate Sound(t: Tools) {
    && (forall n :: t.iso(n).Ok? ==> IsoShape(t.iso(n).value))
    && (forall m, n :: m < n && t.iso(m).Ok? && t.iso(n).Ok? ==> Less(t.iso(m).value, t.iso(n).value))
    && (forall s :: t.crc(s) < 0x1_0000_0000)
    && (forall s :: t.show(Str(s)) == s)
    && Codec.Faithful(t.compact) && Codec.Faithful(t.spaced)
    && (forall job: Job :: Writes(t, JobText(job, t.compact), job) && Writes(t, JobText(job, t.spaced), job))
  }

  /** `text` is how some JSON writer wrote the job. */
  predicate Writes(t: Tools, text: string, job: Job) {
    t.compact.loads(text) == Some(Obj(ToDict(job))) && t.spaced.loads(text) == Some(Obj(ToDict(job)))
  }

  predicate IsDigit(c: char) {
    '0' <= c <= '9'
  }

  // ---- counter:job to ts|job ----

  predicate IsNumeral(s: string) {
    s != [] && forall i :: 0 <= i < |s| ==> IsDigit(s[i])
  }

  /** `int(s)` of a numeral. */
  function Number(s: string): nat
    requires forall i :: 0 <= i < |s| ==> IsDigit(s[i])
  {
    if s == [] then 0
    else
      var last := s[|s| - 1];
      assert IsDigit(last);
      10 * Number(s[..|s| - 1]) + (last as int - '0' as int)
  }

  function FromCounter(t: Tools): Script {
    Script(m => Ok(HasCounter(m)), m => CounterToTime(t, m), true, false, true)
  }

  predicate HasCounter(m: string) {
    IndexOf(m, ':') < |m| && IsNumeral(m[..IndexOf(m, ':')])
  }

  function CounterToTime(t: Tools, m: string): Result<Option<string>> {
    if !HasCounter(m) then Raised
    else
      var i := IndexOf(m, ':');
      match t.iso(Number(m[..i]))
      case Raised => Raised
      case Ok(ts) => Ok(Some(ts + ['|'] + m[i + 1..]))
  }

  // ---- ts|job to depth|type|ts|job ----

  function FromTime(t: Tools): Script {
    Script(m => Ok(!HasDepth(m)), m => TimeToDepth(t, m), true, false, true)
  }

  predicate HasDepth(m: string) {
    |m| >= 3 && IsDigit(m[0]) && IsDigit(m[1]) && m[2] == '|'
  }

  /** `job.get("depth", 0)`, which must be a number. */
  function DepthIn(fields: seq<(string, Json)>): Option<int> {
    match Get(fields, "depth")
    case None => Some(0)
    case Some(Int(n)) => Some(n)
    case Some(Bool(b)) => Some(if b then 1 else 0)
    case _ => None
  }

  function CodeIn(fields: seq<(string, Json)>): Option<nat> {
    match Get(fields, "job_type")
    case Some(Str("webfinger")) => Some(10)
    case Some(Str("actor")) => Some(20)
    case Some(Str("collection")) => Some(30)
    case Some(Str("page")) => Some(40)
    case _ => None
  }

  function TimeToDepth(t: Tools, m: string): Result<Option<string>> {
    var parts := Split(m, '|', 1);
    if |parts| < 2 then Raised
    else
      match t.spaced.loads(parts[1])
      case Some(Obj(fields)) =>
        var depth, code := DepthIn(fields), CodeIn(fields);
        if depth == None || code == None then Raised
        else Ok(Some(Join([Padded(Clamp(depth.value), 10, 2), Padded(code.value, 10, 2), parts[0]], '|', t.spaced.dumps(Obj(fields)))))
      case _ => Raised
  }

  // ---- depth|type|ts|job to depth|type|crc|ts|job ----

  function FromDepth(t: Tools): Script {
    Script(m => LacksCrc(m), m => DepthToCrc(t, m), false, true, false)
  }

  function LacksCrc(m: string): Result<bool> {
    var parts := Split(m, '|', 3);
    if |parts| < 3 then Raised else Ok('T' in parts[2])
  }

  function DepthToCrc(t: Tools, m: string): Result<Option<string>> {
    var parts := Split(m, '|', 3);
    if |parts| < 4 then Raised
    else
      match t.compact.loads(parts[3])
      case None => Raised
      case Some(job) =>
        match JobId(job, t.show)
        case None => Ok(None)
        case Some(id) => Ok(Some(Join([parts[0], parts[1], Padded(t.crc(id), 16, 8), parts[2]], '|', parts[3])))
  }

  // ---- nothing is rewritten twice ----

  lemma {:induction false} IndexOfPast(s: string, sep: char, i: nat)
    requires i <= |s| && sep !in s[..i]
    ensures i <= IndexOf(s, sep)
  {
    assert forall k :: 0 <= k < i ==> s[..i][k] == s[k];
  }

  lemma {:induction false} DashIsNoCounter(m: string)
    requires |m| >= 5 && m[4] == '-' && ':' !in m[..5]
    ensures !HasCounter(m)
  {
    IndexOfPast(m, ':', 5);
    assert m[..IndexOf(m, ':')][4] == '-';
  }

  lemma {:induction false} CounterSettles(t: Tools)
    requires Sound(t)
    ensures Settles(FromCounter(t))
  {
    forall m, n | HasCounter(m) && CounterToTime(t, m) == Ok(Some(n)) ensures !HasCounter(n) {
      var ts := t.iso(Number(m[..IndexOf(m, ':')])).value;
      assert IsoShape(ts) && n[..5] == ts[..5];
      assert forall i :: 0 <= i < 5 ==> n[..5][i] == ts[i] && ts[i] != ':';
      DashIsNoCounter(n);
    }
  }

  lemma {:induction false} TimeSettles(t: Tools)
    ensures Settles(FromTime(t))
  {
    forall m, n | TimeToDepth(t, m) == Ok(Some(n)) ensures HasDepth(n) {
      var parts := Split(m, '|', 1);
      var fields := t.spaced.loads(parts[1]).value.fields;
      var dd := Padded(Clamp(DepthIn(fields).value), 10, 2);
      DepthDigits(Clamp(DepthIn(fields).value));
      JoinMore(dd, [Padded(CodeIn(fields).value, 10, 2), parts[0]], t.spaced.dumps(Obj(fields)));
      assert n[0] == dd[0] && n[1] == dd[1] && n[2] == '|';
    }
  }

  lemma {:induction false} DepthDigits(n: nat)
    requires n <= 99
    ensures IsDigit(Padded(n, 10, 2)[0]) && IsDigit(Padded(n, 10, 2)[1])
  {
    var q := Quotient(n, 10);
    assert Remainder(n, 10) < 10 && Remainder(q, 10) < 10;
    assert Padded(n, 10, 2)[1] == DIGITS[Remainder(n, 10)];
    assert Padded(n, 10, 2)[0] == Padded(q, 10, 1)[0] == DIGITS[Remainder(q, 10)];
  }

  /** All fields of a split but the last are free of the separator. */
  lemma {:induction false} FieldsFree(s: string, sep: char, max: nat, i: nat)
    requires i < |Split(s, sep, max)| - 1
    ensures sep !in Split(s, sep, max)[i]
    decreases max
  {
    if i > 0 {
      FieldsFree(s[IndexOf(s, sep) + 1..], sep, max - 1, i - 1);
    }
  }

  lemma {:induction false} CrcSettles(t: Tools)
    requires Sound(t)
    ensures Settles(FromDepth(t))
  {
    forall m, n | LacksCrc(m) == Ok(true) && DepthToCrc(t, m) == Ok(Some(n)) ensures LacksCrc(n) == Ok(false) {
      var parts := Split(m, '|', 3);
      var id := JobId(t.compact.loads(parts[3]).value, t.show).value;
      FieldsFree(m, '|', 3, 0);
      FieldsFree(m, '|', 3, 1);
      CrcField(parts[0], parts[1], t.crc(id), parts[2], parts[3]);
    }
  }

  lemma {:induction false} CrcField(depth: string, code: string, crc: nat, ts: string, job: string)
    requires '|' !in depth && '|' !in code && crc < 0x1_0000_0000
    ensures LacksCrc(Join([depth, code, Padded(crc, 16, 8), ts], '|', job)) == Ok(false)
  {
    hide Padded, Join, Split;
    var fields := [depth, code, Padded(crc, 16, 8)];
    BarFree(crc, 16, 8);
    SplitJoin(fields, '|', Join([ts], '|', job));
    assert fields + [ts] == [depth, code, Padded(crc, 16, 8), ts];
    JoinTwice(fields, [ts], job);
  }

  lemma {:induction false} JoinTwice(first: seq<string>, more: seq<string>, last: string)
    ensures Join(first + more, '|', last) == Join(first, '|', Join(more, '|', last))
  {
    if first == [] {
      assert first + more == more;
    } else {
      assert (first + more)[1..] == first[1..] + more;
      JoinTwice(first[1..], more, last);
    }
  }

  lemma {:induction false} JoinMore(first: string, more: seq<string>, last: string)
    ensures Join([first] + more, '|', last) == first + ['|'] + Join(more, '|', last)
  {
    assert ([first] + more)[1..] == more;
  }

  // ---- what each rewrite makes of a member the crawler wrote ----

  /** The formats, oldest first. Until the third rewrite the job text is whatever the
      writer of that time used. */
  function CounterMember(counter: string, text: string): string { counter + [':'] + text }

  function TimeMember(ts: string, text: string): string { ts + ['|'] + text }

  function DepthMember(job: Job, ts: string, text: string): string {
    Join([Padded(Clamp(Depth(job)), 10, 2), Padded(TypeCode(job), 10, 2), ts], '|', text)
  }

  function CrcMember(t: Tools, job: Job, ts: string, text: string): string {
    Join([Padded(Clamp(Depth(job)), 10, 2), Padded(TypeCode(job), 10, 2), Padded(t.crc(Id(job)), 16, 8), ts], '|', text)
  }

  lemma {:induction false} CounterImage(t: Tools, counter: string, text: string)
    requires IsNumeral(counter) && t.iso(Number(counter)).Ok?
    ensures Image(FromCounter(t), CounterMember(counter, text)) == TimeMember(t.iso(Number(counter)).value, text)
    ensures Readable(FromCounter(t), CounterMember(counter, text))
  {
    var m := CounterMember(counter, text);
    assert forall i :: 0 <= i < |counter| ==> counter[i] != ':';
    IndexOfField(counter, ':', text);
    assert m[..|counter|] == counter && m[|counter| + 1..] == text;
  }

  lemma {:induction false} DictFields(job: Job)
    ensures DepthIn(ToDict(job)) == Some(Depth(job))
    ensures CodeIn(ToDict(job)) == Some(TypeCode(job))
  {
    var fields := ToDict(job);
    match job
    case Webfinger(_) =>
      GetAt(fields, 0);
      assert fields[1..] == [fields[1]] && fields[1..][1..] == [];
      assert Get(fields[1..], "depth") == Get(fields[1..][1..], "depth");
    case Actor(_, _) => GetAt(fields, 1); GetAt(fields, 2);
    case Collection(_, _, _, _) => GetAt(fields, 1); GetAt(fields, 3);
    case Page(_, _, _, _) => GetAt(fields, 0); GetAt(fields, 2);
  }


  lemma {:induction false} TimeImage(t: Tools, job: Job, ts: string, text: string)
    requires Sound(t) && IsoShape(ts) && Writes(t, text, job)
    ensures Image(FromTime(t), TimeMember(ts, text)) == DepthMember(job, ts, JobText(job, t.spaced))
    ensures Readable(FromTime(t), TimeMember(ts, text))
    ensures Writes(t, JobText(job, t.spaced), job)
  {
    DictFields(job);
    var m := TimeMember(ts, text);
    assert m[2] == ts[2];
    SplitField(ts, '|', text, 1);
    assert Split(m, '|', 1) == [ts, text];
  }

  lemma {:induction false} CrcImage(t: Tools, job: Job, ts: string, text: string)
    requires Sound(t) && IsoShape(ts) && Writes(t, text, job)
    ensures Image(FromDepth(t), DepthMember(job, ts, text)) == CrcMember(t, job, ts, text)
    ensures Readable(FromDepth(t), DepthMember(job, ts, text))
  {
    hide Padded, Join, Split, Less, JobText, IsDigit;
    JobIdOfDict(job, t.show);
    var dd, cc := Padded(Clamp(Depth(job)), 10, 2), Padded(TypeCode(job), 10, 2);
    BarFree(Clamp(Depth(job)), 10, 2);
    BarFree(TypeCode(job), 10, 2);
    SplitJoin([dd, cc, ts], '|', text);
    assert [dd, cc, ts] + [text] == [dd, cc, ts, text];
    assert ts[10] in ts;
  }

  /** The crawler reads the last format back, with the same crc it writes itself. */
  lemma {:induction false} CrcMemberDecodes(t: Tools, job: Job, ts: string, text: string)
    requires Sound(t) && IsoShape(ts) && Writes(t, text, job)
    ensures ParseMember(CrcMember(t, job, ts, text), t.compact) == Some(Obj(ToDict(job)))
    ensures JobIn(CrcMember(t, job, ts, text), t.compact) == Some(job)
    ensures text == JobText(job, t.compact) ==> CrcMember(t, job, ts, text) == Render(MemberOf(job, t.crc, ts), t.compact)
  {
    hide Padded, Join, Split;
    var fields := [Padded(Clamp(Depth(job)), 10, 2), Padded(TypeCode(job), 10, 2), Padded(t.crc(Id(job)), 16, 8), ts];
    BarFree(Clamp(Depth(job)), 10, 2);
    BarFree(TypeCode(job), 10, 2);
    BarFree(t.crc(Id(job)), 16, 8);
    SplitJoin(fields, '|', text);
    FromToDict(job);
  }

  // ---- the three in a row ----

  function Decimal(n: nat): (s: string)
    ensures IsNumeral(s)
  {
    if n < 10 then [DIGITS[n]] else Decimal(n / 10) + [DIGITS[n % 10]]
  }

  lemma {:induction false} NumberMore(s: string, d: nat)
    requires (forall i :: 0 <= i < |s| ==> IsDigit(s[i])) && d < 10
    ensures IsDigit(DIGITS[d]) && Number(s + [DIGITS[d]]) == 10 * Number(s) + d
  {
    var more := s + [DIGITS[d]];
    assert more[..|more| - 1] == s && more[|more| - 1] == DIGITS[d];
    assert DIGITS[d] as int - '0' as int == d;
  }

  lemma {:induction false} NumberOfDecimal(n: nat)
    ensures Number(Decimal(n)) == n
  {
    hide IsDigit, Number;
    if n < 10 {
      NumberMore([], n);
      NumberOfNothing();
      assert [] + [DIGITS[n]] == [DIGITS[n]];
    } else {
      NumberOfDecimal(n / 10);
      NumberMore(Decimal(n / 10), n % 10);
    }
  }

  lemma {:induction false} NumberOfNothing()
    ensures Number([]) == 0
  {
  }

  /** A queued job: the counter it was queued under, and the job. */
  datatype Item = Item(counter: nat, job: Job)

  function Time(t: Tools, x: Item): string
    requires t.iso(x.counter).Ok?
  {
    t.iso(x.counter).value
  }

  ghost predicate Timed(t: Tools, items: set<Item>) {
    forall x :: x in items ==> t.iso(x.counter).Ok?
  }

  function Counters(t: Tools, items: set<Item>): set<string> {
    set x | x in items :: CounterMember(Decimal(x.counter), JobText(x.job, t.compact))
  }

  function Times(t: Tools, items: set<Item>): set<string>
    requires Timed(t, items)
  {
    set x | x in items :: TimeMember(Time(t, x), JobText(x.job, t.compact))
  }

  function Depths(t: Tools, items: set<Item>): set<string>
    requires Timed(t, items)
  {
    set x | x in items :: DepthMember(x.job, Time(t, x), JobText(x.job, t.spaced))
  }

  function Crcs(t: Tools, items: set<Item>): set<string>
    requires Timed(t, items)
  {
    set x | x in items :: CrcMember(t, x.job, Time(t, x), JobText(x.job, t.spaced))
  }

  lemma {:induction false} CountersToTimes(t: Tools, items: set<Item>)
    requires Sound(t) && Timed(t, items)
    ensures Images(FromCounter(t), Counters(t, items)) == Times(t, items)
  {
    forall x | x in items
      ensures Image(FromCounter(t), CounterMember(Decimal(x.counter), JobText(x.job, t.compact))) ==
              TimeMember(Time(t, x), JobText(x.job, t.compact))
    {
      NumberOfDecimal(x.counter);
      CounterImage(t, Decimal(x.counter), JobText(x.job, t.compact));
    }
    hide Image, CounterMember, TimeMember, FromCounter;
    forall m | m in Times(t, items) ensures m in Images(FromCounter(t), Counters(t, items)) {
      var x :| x in items && m == TimeMember(Time(t, x), JobText(x.job, t.compact));
      assert CounterMember(Decimal(x.counter), JobText(x.job, t.compact)) in Counters(t, items);
    }
  }

  lemma {:induction false} TimesToDepths(t: Tools, items: set<Item>)
    requires Sound(t) && Timed(t, items)
    ensures Images(FromTime(t), Times(t, items)) == Depths(t, items)
  {
    forall x | x in items
      ensures Image(FromTime(t), TimeMember(Time(t, x), JobText(x.job, t.compact))) ==
              DepthMember(x.job, Time(t, x), JobText(x.job, t.spaced))
    {
      TimeImage(t, x.job, Time(t, x), JobText(x.job, t.compact));
    }
    hide Image, TimeMember, DepthMember, FromTime;
    forall m | m in Depths(t, items) ensures m in Images(FromTime(t), Times(t, items)) {
      var x :| x in items && m == DepthMember(x.job, Time(t, x), JobText(x.job, t.spaced));
      assert TimeMember(Time(t, x), JobText(x.job, t.compact)) in Times(t, items);
    }
  }

  lemma {:induction false} DepthsToCrcs(t: Tools, items: set<Item>)
    requires Sound(t) && Timed(t, items)
    ensures Images(FromDepth(t), Depths(t, items)) == Crcs(t, items)
  {
    forall x | x in items
      ensures Image(FromDepth(t), DepthMember(x.job, Time(t, x), JobText(x.job, t.spaced))) ==
              CrcMember(t, x.job, Time(t, x), JobText(x.job, t.spaced))
    {
      CrcImage(t, x.job, Time(t, x), JobText(x.job, t.spaced));
    }
    hide Image, DepthMember, CrcMember, FromDepth;
    forall m | m in Crcs(t, items) ensures m in Images(FromDepth(t), Depths(t, items)) {
      var x :| x in items && m == CrcMember(t, x.job, Time(t, x), JobText(x.job, t.spaced));
      assert DepthMember(x.job, Time(t, x), JobText(x.job, t.spaced)) in Depths(t, items);
    }
  }

  lemma {:induction false} CrcMemberTells(t: Tools, x: Item, y: Item)
    requires Sound(t) && t.iso(x.counter).Ok? && t.iso(y.counter).Ok?
    requires CrcMember(t, x.job, Time(t, x), JobText(x.job, t.spaced)) == CrcMember(t, y.job, Time(t, y), JobText(y.job, t.spaced))
    ensures x == y
  {
    hide Less, Padded, Join, Split;
    CrcMemberDecodes(t, x.job, Time(t, x), JobText(x.job, t.spaced));
    CrcMemberDecodes(t, y.job, Time(t, y), JobText(y.job, t.spaced));
    CrcMemberTime(t, x.job, Time(t, x), Time(t, y), JobText(x.job, t.spaced));
    TimeTells(t, x.counter, y.counter);
  }

  lemma {:induction false} TimeTells(t: Tools, m: nat, n: nat)
    requires Sound(t) && t.iso(m).Ok? && t.iso(m) == t.iso(n)
    ensures m == n
  {
    LessTotal(t.iso(m).value, t.iso(n).value);
  }

  lemma {:induction false} CrcMemberTime(t: Tools, job: Job, ts: string, ts': string, text: string)
    requires Sound(t) && IsoShape(ts) && IsoShape(ts') && CrcMember(t, job, ts, text) == CrcMember(t, job, ts', text)
    ensures ts == ts'
  {
    hide Padded, Join, Split;
    var prefix := [Padded(Clamp(Depth(job)), 10, 2), Padded(TypeCode(job), 10, 2), Padded(t.crc(Id(job)), 16, 8)];
    BarFree(Clamp(Depth(job)), 10, 2);
    BarFree(TypeCode(job), 10, 2);
    BarFree(t.crc(Id(job)), 16, 8);
    assert prefix + [ts] == [prefix[0], prefix[1], prefix[2], ts];
    assert prefix + [ts'] == [prefix[0], prefix[1], prefix[2], ts'];
    SplitJoin(prefix + [ts], '|', text);
    SplitJoin(prefix + [ts'], '|', text);
    assert (prefix + [ts] + [text])[3] == ts && (prefix + [ts'] + [text])[3] == ts';
  }

  lemma {:induction false} CrcsCount(t: Tools, items: set<Item>)
    requires Sound(t) && Timed(t, items)
    ensures |Crcs(t, items)| == |items|
  {
    hide CrcMember, Sound, JobText, Time, Crcs;
    if items == {} {
      NoCrcs(t);
    } else {
      var x :| x in items;
      var rest := items - {x};
      CrcsCount(t, rest);
      assert items == rest + {x};
      CrcsSplit(t, x, rest);
      CrcIsNew(t, x, rest);
    }
  }

  lemma {:induction false} NoCrcs(t: Tools)
    ensures Crcs(t, {}) == {}
  {
  }

  lemma {:induction false} CrcsSplit(t: Tools, x: Item, rest: set<Item>)
    requires Timed(t, rest + {x})
    ensures Crcs(t, rest + {x}) == Crcs(t, rest) + {CrcMember(t, x.job, Time(t, x), JobText(x.job, t.spaced))}
  {
    hide CrcMember, JobText, Time;
  }

  lemma {:induction false} CrcIsNew(t: Tools, x: Item, rest: set<Item>)
    requires Sound(t) && Timed(t, rest) && t.iso(x.counter).Ok? && x !in rest
    ensures CrcMember(t, x.job, Time(t, x), JobText(x.job, t.spaced)) !in Crcs(t, rest)
  {
    hide CrcMember, Sound;
    forall y | y in rest
      ensures CrcMember(t, y.job, Time(t, y), JobText(y.job, t.spaced)) != CrcMember(t, x.job, Time(t, x), JobText(x.job, t.spaced))
    {
      if CrcMember(t, y.job, Time(t, y), JobText(y.job, t.spaced)) == CrcMember(t, x.job, Time(t, x), JobText(x.job, t.spaced)) {
        CrcMemberTells(t, x, y);
      }
    }
  }

  /** A queue in the oldest format ends, job for job, in the format the crawler reads. */
  lemma {:induction false} ThreeRewrites(t: Tools, items: set<Item>)
    requires Sound(t) && Timed(t, items)
    ensures var last := Images(FromDepth(t), Images(FromTime(t), Images(FromCounter(t), Counters(t, items))));
            && last == Crcs(t, items) && |last| == |items|
            && forall x :: x in items ==> JobIn(CrcMember(t, x.job, Time(t, x), JobText(x.job, t.spaced)), t.compact) == Some(x.job)
  {
    hide Images, CrcMember;
    CountersToTimes(t, items);
    TimesToDepths(t, items);
    DepthsToCrcs(t, items);
    CrcsCount(t, items);
    forall x | x in items ensures JobIn(CrcMember(t, x.job, Time(t, x), JobText(x.job, t.spaced)), t.compact) == Some(x.job) {
      CrcMemberDecodes(t, x.job, Time(t, x), JobText(x.job, t.spaced));
    }
  }

  /** No stage merges two jobs: each keeps the number of members. */
  lemma {:induction false} NoStageMerges(t: Tools, items: set<Item>)
    requires Sound(t) && Timed(t, items)
    ensures |Counters(t, items)| == |Times(t, items)| == |Depths(t, items)| == |items|
    ensures Separate(FromCounter(t), Counters(t, items)) && Separate(FromTime(t), Times(t, items)) && Separate(FromDepth(t), Depths(t, items))
  {
    hide Images, Separate;
    ThreeRewrites(t, items);
    CountersToTimes(t, items);
    TimesToDepths(t, items);
    DepthsToCrcs(t, items);
    ImagesCount(FromCounter(t), Counters(t, items));
    ImagesCount(FromTime(t), Times(t, items));
    ImagesCount(FromDepth(t), Depths(t, items));
    CountersCount(t, items);
  }

  lemma {:induction false} CountersCount(t: Tools, items: set<Item>)
    ensures |Counters(t, items)| <= |items|
  {
    hide CounterMember, Decimal, JobText;
    if items != {} {
      var x :| x in items;
      CountersCount(t, items - {x});
      assert items == items - {x} + {x};
      assert Counters(t, items) == Counters(t, items - {x}) + {CounterMember(Decimal(x.counter), JobText(x.job, t.compact))};
    }
  }

  /** Jobs that tie on depth, type and crc still come out in the order they were
      queued, however many digits their counters had. */
  lemma {:induction false} OldOrderSurvives(t: Tools, x: Item, y: Item)
    requires Sound(t) && t.iso(x.counter).Ok? && t.iso(y.counter).Ok? && x.counter < y.counter
    requires SameKey(MemberOf(x.job, t.crc, ""), MemberOf(y.job, t.crc, ""))
    ensures Less(CrcMember(t, x.job, Time(t, x), JobText(x.job, t.spaced)), CrcMember(t, y.job, Time(t, y), JobText(y.job, t.spaced)))
  {
    hide Padded, Join, Less;
    var key := [Padded(Clamp(Depth(x.job)), 10, 2), Padded(TypeCode(x.job), 10, 2), Padded(t.crc(Id(x.job)), 16, 8)];
    assert key + [Time(t, x)] == [key[0], key[1], key[2], Time(t, x)];
    assert key + [Time(t, y)] == [key[0], key[1], key[2], Time(t, y)];
    JoinOrder(key + [Time(t, x)], key + [Time(t, y)], JobText(x.job, t.spaced), JobText(y.job, t.spaced));
  }

  // ---- exactly when a rewrite makes two members one ----

  /** The first rewrite: when the counters are spellings of one number and the texts are equal. */
  lemma {:induction false} CountersMerge(t: Tools, c: string, d: string, x: string, y: string)
    requires Sound(t) && IsNumeral(c) && IsNumeral(d) && t.iso(Number(c)).Ok? && t.iso(Number(d)).Ok?
    ensures Image(FromCounter(t), CounterMember(c, x)) == Image(FromCounter(t), CounterMember(d, y)) <==>
            Number(c) == Number(d) && x == y
  {
    hide Image, CounterMember, FromCounter, Number, Less;
    CounterImage(t, c, x);
    CounterImage(t, d, y);
    var ts, us := t.iso(Number(c)).value, t.iso(Number(d)).value;
    if TimeMember(ts, x) == TimeMember(us, y) {
      assert ts == TimeMember(ts, x)[..TS_WIDTH] && us == TimeMember(us, y)[..TS_WIDTH];
      assert x == TimeMember(ts, x)[TS_WIDTH + 1..] && y == TimeMember(us, y)[TS_WIDTH + 1..];
      TimeTells(t, Number(c), Number(d));
    }
  }

  /** A member in the oldest format: a spelling of a counter, and a text. */
  datatype Ticket = Ticket(counter: string, text: string)

  ghost predicate Legible(t: Tools, tickets: set<Ticket>) {
    forall k :: k in tickets ==> IsNumeral(k.counter) && t.iso(Number(k.counter)).Ok?
  }

  function Written(tickets: set<Ticket>): set<string> {
    set k | k in tickets :: CounterMember(k.counter, k.text)
  }

  /** No text stands under two spellings of one number. */
  ghost predicate SpelledOnce(tickets: set<Ticket>) {
    forall k, l :: k in tickets && l in tickets && SameTicket(k, l) ==> k == l
  }

  predicate SameTicket(k: Ticket, l: Ticket) {
    IsNumeral(k.counter) && IsNumeral(l.counter) && Number(k.counter) == Number(l.counter) && k.text == l.text
  }

  /** The first rewrite keeps the number of members exactly when no counter is spelled
      in two ways under one text. */
  lemma {:induction false} CountKept(t: Tools, tickets: set<Ticket>)
    requires Sound(t) && Legible(t, tickets)
    ensures |Images(FromCounter(t), Written(tickets))| == |Written(tickets)| <==> SpelledOnce(tickets)
  {
    hide Image, FromCounter, Sound;
    var members := Written(tickets);
    ImagesCount(FromCounter(t), members);
    forall k, l | k in tickets && l in tickets
      ensures Image(FromCounter(t), CounterMember(k.counter, k.text)) == Image(FromCounter(t), CounterMember(l.counter, l.text)) <==>
              Number(k.counter) == Number(l.counter) && k.text == l.text
      ensures CounterMember(k.counter, k.text) == CounterMember(l.counter, l.text) <==> k == l
    {
      CountersMerge(t, k.counter, l.counter, k.text, l.text);
      TicketTells(k, l);
    }
    if Separate(FromCounter(t), members) {
      forall k, l | k in tickets && l in tickets && SameTicket(k, l) ensures k == l {
        assert CounterMember(k.counter, k.text) in members && CounterMember(l.counter, l.text) in members;
      }
    }
  }

  lemma {:induction false} TicketTells(k: Ticket, l: Ticket)
    requires IsNumeral(k.counter) && IsNumeral(l.counter)
    ensures CounterMember(k.counter, k.text) == CounterMember(l.counter, l.text) <==> k == l
  {
    if CounterMember(k.counter, k.text) == CounterMember(l.counter, l.text) {
      var m := CounterMember(k.counter, k.text);
      assert forall i :: 0 <= i < |k.counter| ==> k.counter[i] != ':';
      assert forall i :: 0 <= i < |l.counter| ==> l.counter[i] != ':';
      IndexOfField(k.counter, ':', k.text);
      IndexOfField(l.counter, ':', l.text);
      assert m[..|k.counter|] == k.counter && m[..|l.counter|] == l.counter;
      assert m[|k.counter| + 1..] == k.text && m[|l.counter| + 1..] == l.text;
    }
  }

  /** The counters must be plain decimals: a leading zero makes two members one. */
  lemma {:induction false} LeadingZeroMerges(t: Tools, text: string)
    requires Sound(t) && t.iso(7).Ok?
    ensures var queue := {CounterMember("7", text), CounterMember("07", text)};
            |queue| == 2 && |Images(FromCounter(t), queue)| == 1
  {
    var a, b := CounterMember("7", text), CounterMember("07", text);
    assert a[0] != b[0];
    assert "07"[..1] == "0" && "0"[..0] == "" && "7"[..0] == "";
    assert Number("07") == Number("7") == 7;
    CountersMerge(t, "7", "07", text, text);
    assert Images(FromCounter(t), {a, b}) == {Image(FromCounter(t), a)};
  }

  lemma {:induction false} DepthMemberTells(j: Job, k: Job, ts: string, us: string, x: string, y: string)
    requires IsoShape(ts) && IsoShape(us) && DepthMember(j, ts, x) == DepthMember(k, us, y)
    ensures ts == us && x == y
  {
    hide Padded, Join, Split;
    var p, q := Padded(Clamp(Depth(j)), 10, 2), Padded(TypeCode(j), 10, 2);
    var r, s := Padded(Clamp(Depth(k)), 10, 2), Padded(TypeCode(k), 10, 2);
    BarFree(Clamp(Depth(j)), 10, 2);
    BarFree(TypeCode(j), 10, 2);
    BarFree(Clamp(Depth(k)), 10, 2);
    BarFree(TypeCode(k), 10, 2);
    SplitJoin([p, q, ts], '|', x);
    SplitJoin([r, s, us], '|', y);
    assert ([p, q, ts] + [x])[2] == ts && ([p, q, ts] + [x])[3] == x;
    assert ([r, s, us] + [y])[2] == us && ([r, s, us] + [y])[3] == y;
  }

  /** The second rewrite: when time and job are equal, whatever the two texts. */
  lemma {:induction false} TimesMerge(t: Tools, j: Job, k: Job, ts: string, us: string, x: string, y: string)
    requires Sound(t) && IsoShape(ts) && IsoShape(us) && Writes(t, x, j) && Writes(t, y, k)
    ensures Image(FromTime(t), TimeMember(ts, x)) == Image(FromTime(t), TimeMember(us, y)) <==> ts == us && j == k
  {
    hide Image, TimeMember, DepthMember, FromTime, Less;
    TimeImage(t, j, ts, x);
    TimeImage(t, k, us, y);
    if DepthMember(j, ts, JobText(j, t.spaced)) == DepthMember(k, us, JobText(k, t.spaced)) {
      DepthMemberTells(j, k, ts, us, JobText(j, t.spaced), JobText(k, t.spaced));
      JobTextInjective(j, k, t.spaced);
    }
  }

  /** The third rewrite: never. */
  lemma {:induction false} DepthsNeverMerge(t: Tools, j: Job, k: Job, ts: string, us: string, x: string, y: string)
    requires Sound(t) && IsoShape(ts) && IsoShape(us) && Writes(t, x, j) && Writes(t, y, k)
    ensures Image(FromDepth(t), DepthMember(j, ts, x)) == Image(FromDepth(t), DepthMember(k, us, y)) <==>
            DepthMember(j, ts, x) == DepthMember(k, us, y)
  {
    hide Image, DepthMember, FromDepth, CrcMember, Less;
    CrcImage(t, j, ts, x);
    CrcImage(t, k, us, y);
    if CrcMember(t, j, ts, x) == CrcMember(t, k, us, y) {
      SplitCrcMember(t, j, ts, x);
      SplitCrcMember(t, k, us, y);
      DictInjective(j, k);
    }
    if DepthMember(j, ts, x) == DepthMember(k, us, y) {
      DepthMemberTells(j, k, ts, us, x, y);
      DictInjective(j, k);
    }
  }

  lemma {:induction false} SplitCrcMember(t: Tools, job: Job, ts: string, text: string)
    requires Sound(t) && IsoShape(ts)
    ensures var parts := Split(CrcMember(t, job, ts, text), '|', 4);
            |parts| == 5 && parts[3] == ts && parts[4] == text
  {
    hide Padded, Join, Split;
    var fields := [Padded(Clamp(Depth(job)), 10, 2), Padded(TypeCode(job), 10, 2), Padded(t.crc(Id(job)), 16, 8), ts];
    BarFree(Clamp(Depth(job)), 10, 2);
    BarFree(TypeCode(job), 10, 2);
    BarFree(t.crc(Id(job)), 16, 8);
    SplitJoin(fields, '|', text);
    assert (fields + [text])[3] == ts && (fields + [text])[4] == text;
  }

  // ---- the three scripts run one after another ----

  /** A scan as a function of the queue it finds: whatever it also shows of what the
      script writes meanwhile, it hands out every member that was there. */
  type Scan = map<string, real> -> seq<(string, real)>

  ghost predicate Complete(script: Script, scan: Scan) {
    forall queue :: Delivers(script, scan(queue), queue) && Covers(scan(queue), queue)
  }

  lemma {:induction false} CountersReadable(t: Tools, items: set<Item>)
    requires Sound(t) && Timed(t, items)
    ensures forall m :: m in Counters(t, items) ==> Readable(FromCounter(t), m)
  {
    hide Readable, FromCounter, Sound, Image;
    forall m | m in Counters(t, items) ensures Readable(FromCounter(t), m) {
      var x :| x in items && m == CounterMember(Decimal(x.counter), JobText(x.job, t.compact));
      NumberOfDecimal(x.counter);
      CounterImage(t, Decimal(x.counter), JobText(x.job, t.compact));
    }
  }

  lemma {:induction false} TimesReadable(t: Tools, items: set<Item>)
    requires Sound(t) && Timed(t, items)
    ensures forall m :: m in Times(t, items) ==> Readable(FromTime(t), m)
  {
    hide Readable, FromTime, Image;
    forall m | m in Times(t, items) ensures Readable(FromTime(t), m) {
      var x :| x in items && m == TimeMember(Time(t, x), JobText(x.job, t.compact));
      TimeImage(t, x.job, Time(t, x), JobText(x.job, t.compact));
    }
  }

  lemma {:induction false} DepthsReadable(t: Tools, items: set<Item>)
    requires Sound(t) && Timed(t, items)
    ensures forall m :: m in Depths(t, items) ==> Readable(FromDepth(t), m)
  {
    hide Readable, FromDepth, Image;
    forall m | m in Depths(t, items) ensures Readable(FromDepth(t), m) {
      var x :| x in items && m == DepthMember(x.job, Time(t, x), JobText(x.job, t.spaced));
      CrcImage(t, x.job, Time(t, x), JobText(x.job, t.spaced));
    }
  }

  lemma {:induction false} CrcIsAdded(t: Tools, job: Job, ts: string, text: string)
    requires Sound(t) && IsoShape(ts)
    ensures DepthMember(job, ts, text) != CrcMember(t, job, ts, text)
  {
    hide Padded, Join, Split;
    var dd, cc := Padded(Clamp(Depth(job)), 10, 2), Padded(TypeCode(job), 10, 2);
    BarFree(Clamp(Depth(job)), 10, 2);
    BarFree(TypeCode(job), 10, 2);
    SplitJoin([dd, cc, ts], '|', text);
    assert ([dd, cc, ts] + [text])[2] == ts && ts[10] in ts;
    assert LacksCrc(DepthMember(job, ts, text)) == Ok(true);
    CrcField(dd, cc, t.crc(Id(job)), ts, text);
  }

  /** One script left to run to its end. */
  method RunToEnd(r: SortedSet, script: Script, scan: Scan, size: int)
    requires Settles(script) && Safe(script) && Complete(script, scan)
    requires forall m :: m in r.members ==> Readable(script, m)
    modifies r
    ensures r.members.Keys == Images(script, old(r.members.Keys))
    ensures Separate(script, old(r.members).Keys) ==> forall m :: m in old(r.members) ==> ScoreKept(script, r.members, old(r.members), m)
  {
    hide Settles, Images, Migrating.Faithful, ScoreKept, Separate;
    var found := scan(r.members);
    assert Delivers(script, found, r.members) && Covers(found, r.members);
    assert forall i :: 0 <= i < |found| ==> Readable(script, found[i].0);
    var tried, migrated, ended := Migrate(r, script, found, size, |found| + 1, 0);
  }

  /** The three scripts bring a queue from the oldest format to the one the crawler
      reads, job for job, whatever their scans repeat and their batches hold. The first
      two carry the scores along, the third writes zeros. */
  method RewriteQueue(t: Tools, r: SortedSet, ghost items: set<Item>, scans: (Scan, Scan, Scan), sizes: (int, int, int))
    returns (ghost timed: map<string, real>, ghost deep: map<string, real>)
    requires Sound(t) && Timed(t, items) && r.members.Keys == Counters(t, items)
    requires Complete(FromCounter(t), scans.0) && Complete(FromTime(t), scans.1) && Complete(FromDepth(t), scans.2)
    modifies r
    ensures timed.Keys == Times(t, items) && deep.Keys == Depths(t, items)
    ensures r.members.Keys == Crcs(t, items) && |r.members| == |items|
    ensures forall x :: x in items ==> Carried(t, x, old(r.members), timed, deep)
    ensures forall m :: m in r.members ==> r.members[m] == 0.0
  {
    hide Complete, Sound, Counters, Times, Depths, Crcs, Images, Readable, FromCounter, FromTime, FromDepth, Settles, ScoreKept, Separate, Carried;
    ScriptsAreSafe(t);
    NoStageMerges(t, items);
    CounterSettles(t);
    CountersReadable(t, items);
    RunToEnd(r, FromCounter(t), scans.0, sizes.0);
    timed := r.members;
    CountersToTimes(t, items);
    TimeSettles(t);
    TimesReadable(t, items);
    RunToEnd(r, FromTime(t), scans.1, sizes.1);
    deep := r.members;
    TimesToDepths(t, items);
    CarriedAlong(t, items, old(r.members), timed, deep);
    CrcSettles(t);
    DepthsReadable(t, items);
    RunToEnd(r, FromDepth(t), scans.2, sizes.2);
    DepthsToCrcs(t, items);
    CrcsCount(t, items);
    ZeroedLast(t, items, deep, r.members);
  }

  lemma {:induction false} ScriptsAreSafe(t: Tools)
    ensures Safe(FromCounter(t)) && Safe(FromTime(t)) && Safe(FromDepth(t))
  {
  }

  /** After the first two scripts the job of `x` still has the score it came with. */
  ghost predicate Carried(t: Tools, x: Item, oldest: map<string, real>, timed: map<string, real>, deep: map<string, real>)
    requires t.iso(x.counter).Ok?
  {
    var m := CounterMember(Decimal(x.counter), JobText(x.job, t.compact));
    var n := TimeMember(Time(t, x), JobText(x.job, t.compact));
    var k := DepthMember(x.job, Time(t, x), JobText(x.job, t.spaced));
    m in oldest && n in timed && k in deep && oldest[m] == timed[n] == deep[k]
  }

  lemma {:induction false} CarriedAlong(t: Tools, items: set<Item>, oldest: map<string, real>, timed: map<string, real>, deep: map<string, real>)
    requires Sound(t) && Timed(t, items) && oldest.Keys == Counters(t, items) && timed.Keys == Times(t, items)
    requires forall m :: m in oldest ==> ScoreKept(FromCounter(t), timed, oldest, m)
    requires forall m :: m in timed ==> ScoreKept(FromTime(t), deep, timed, m)
    ensures forall x :: x in items ==> Carried(t, x, oldest, timed, deep)
  {
    hide Image, Sound, CounterMember, TimeMember, DepthMember;
    forall x | x in items ensures Carried(t, x, oldest, timed, deep) {
      var m, n := CounterMember(Decimal(x.counter), JobText(x.job, t.compact)), TimeMember(Time(t, x), JobText(x.job, t.compact));
      assert m in Counters(t, items) && n in Times(t, items);
      NumberOfDecimal(x.counter);
      CounterImage(t, Decimal(x.counter), JobText(x.job, t.compact));
      TimeOfItem(t, x);
      assert ScoreKept(FromCounter(t), timed, oldest, m) && ScoreKept(FromTime(t), deep, timed, n);
    }
  }

  lemma {:induction false} TimeOfItem(t: Tools, x: Item)
    requires Sound(t) && t.iso(x.counter).Ok?
    ensures Image(FromTime(t), TimeMember(Time(t, x), JobText(x.job, t.compact))) == DepthMember(x.job, Time(t, x), JobText(x.job, t.spaced))
  {
    TimeImage(t, x.job, Time(t, x), JobText(x.job, t.compact));
  }

  lemma {:induction false} ZeroedLast(t: Tools, items: set<Item>, deep: map<string, real>, last: map<string, real>)
    requires Sound(t) && Timed(t, items) && deep.Keys == Depths(t, items) && last.Keys == Crcs(t, items)
    requires forall m :: m in deep ==> ScoreKept(FromDepth(t), last, deep, m)
    ensures forall m :: m in last ==> last[m] == 0.0
  {
    hide Image, CrcMember, DepthMember, JobText, Less;
    forall m | m in last ensures last[m] == 0.0 {
      var x :| x in items && m == CrcMember(t, x.job, Time(t, x), JobText(x.job, t.spaced));
      var k := DepthMember(x.job, Time(t, x), JobText(x.job, t.spaced));
      assert k in Depths(t, items);
      CrcImage(t, x.job, Time(t, x), JobText(x.job, t.spaced));
      CrcIsAdded(t, x.job, Time(t, x), JobText(x.job, t.spaced));
      assert ScoreKept(FromDepth(t), last, deep, k);
    }
  }
}
