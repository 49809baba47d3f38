/**
 What the main results ask of the surroundings can be had: a JSON library that reads
 back the jobs it wrote, clocks and checksums for the rewrites, and hashes that make
 any finite web fair.
 */
module Hypotheses {
  import opened Options
  import opened JsonValues
  import opened Jobs
  import opened Text
  import opened Codec
  import opened Web
  import opened DepthSoundness
  import opened BreadthFirst
  import opened MinimumDepth
  import opened Termination
  import opened Crawling
  import opened Rewriting
  import opened SeenFormats
  import Migrating

  // ---- a JSON library ----

  /** A text no other text begins with. */
  function Quoted(s: string): string {
    if s == "" then "." else ['+', s[0]] + Quoted(s[1..])
  }

  function Strokes(n: nat): string {
    if n == 0 then "" else "1" + Strokes(n - 1)
  }

  function NumberText(n: int): string {
    if n < 0 then "-" + Strokes(-n) else Strokes(n)
  }

  /** The kind of value a job's dictionary holds, and its text. */
  function Kind(v: Json): char {
    if v.Str? then 's' else 'i'
  }

  function Body(v: Json): string {
    match v
    case Str(s) => s
    case Int(n) => NumberText(n)
    case _ => ""
  }

  predicate Plain(fields: seq<(string, Json)>) {
    forall i :: 0 <= i < |fields| ==> fields[i].1.Str? || fields[i].1.Int?
  }

  function FieldsText(fields: seq<(string, Json)>): string {
    if fields == [] then ""
    else Quoted(fields[0].0) + ([Kind(fields[0].1)] + (Quoted(Body(fields[0].1)) + FieldsText(fields[1..])))
  }

  function Write(j: Json): string {
    if j.Obj? then FieldsText(j.fields) else ""
  }

  ghost predicate IsJobText(s: string) {
    exists job: Job :: FieldsText(ToDict(job)) == s
  }

  ghost function JobOf(s: string): (job: Job)
    requires IsJobText(s)
    ensures FieldsText(ToDict(job)) == s
  {
    var job: Job :| FieldsText(ToDict(job)) == s;
    job
  }

  ghost function Read(s: string): Option<Json> {
    if IsJobText(s) then Some(Obj(ToDict(JobOf(s)))) else None
  }

  lemma {:induction false} QuotedEnds(a: string, b: string, x: string, y: string)
    requires Quoted(a) + x == Quoted(b) + y
    ensures a == b && x == y
  {
    var p, q := Quoted(a) + x, Quoted(b) + y;
    assert p[0] == q[0];
    if a == "" {
      assert p[1..] == x && q[1..] == y;
    } else {
      assert p[1] == q[1] && p[2..] == Quoted(a[1..]) + x && q[2..] == Quoted(b[1..]) + y;
      QuotedEnds(a[1..], b[1..], x, y);
      assert a == [a[0]] + a[1..] && b == [b[0]] + b[1..];
    }
  }

  lemma {:induction false} StrokesCount(n: nat)
    ensures |Strokes(n)| == n && '-' !in Strokes(n)
  {
    if n > 0 {
      StrokesCount(n - 1);
    }
  }

  lemma {:induction false} NumberTextTells(m: int, n: int)
    requires NumberText(m) == NumberText(n)
    ensures m == n
  {
    StrokesCount(if m < 0 then -m else m);
    StrokesCount(if n < 0 then -n else n);
    assert m < 0 ==> NumberText(m)[0] == '-';
    assert n < 0 ==> NumberText(n)[0] == '-';
  }

  lemma {:induction false} BodyTells(v: Json, w: Json)
    requires (v.Str? || v.Int?) && (w.Str? || w.Int?) && Kind(v) == Kind(w) && Body(v) == Body(w)
    ensures v == w
  {
    if v.Int? {
      NumberTextTells(v.n, w.n);
    }
  }

  lemma {:induction false} FirstFieldTells(k: string, v: Json, x: string, l: string, w: Json, y: string)
    requires (v.Str? || v.Int?) && (w.Str? || w.Int?)
    requires Quoted(k) + ([Kind(v)] + (Quoted(Body(v)) + x)) == Quoted(l) + ([Kind(w)] + (Quoted(Body(w)) + y))
    ensures k == l && v == w && x == y
  {
    hide Quoted, Kind, Body;
    var p, q := [Kind(v)] + (Quoted(Body(v)) + x), [Kind(w)] + (Quoted(Body(w)) + y);
    QuotedEnds(k, l, p, q);
    assert p[0] == Kind(v) && q[0] == Kind(w) && p[1..] == Quoted(Body(v)) + x && q[1..] == Quoted(Body(w)) + y;
    QuotedEnds(Body(v), Body(w), x, y);
    BodyTells(v, w);
  }

  lemma {:induction false} QuotedIsText(s: string)
    ensures Quoted(s) != ""
  {
  }

  lemma {:induction false} FieldsTell(f: seq<(string, Json)>, g: seq<(string, Json)>)
    requires FieldsText(f) == FieldsText(g) && Plain(f) && Plain(g)
    ensures f == g
  {
    hide Quoted, Kind, Body;
    if f != [] {
      QuotedIsText(f[0].0);
    }
    if g != [] {
      QuotedIsText(g[0].0);
    }
    if f != [] && g != [] {
      FirstFieldTells(f[0].0, f[0].1, FieldsText(f[1..]), g[0].0, g[0].1, FieldsText(g[1..]));
      FieldsTell(f[1..], g[1..]);
      assert f == [f[0]] + f[1..] && g == [g[0]] + g[1..];
    }
  }

  lemma {:induction false} ReadsBack(job: Job)
    ensures Read(Write(Obj(ToDict(job)))) == Some(Obj(ToDict(job)))
  {
    hide FieldsText;
    var s := FieldsText(ToDict(job));
    assert IsJobText(s);
    FieldsTell(ToDict(JobOf(s)), ToDict(job));
  }

  lemma {:induction false} FaithfulCanHold()
    ensures Faithful(JsonText(Write, Read))
  {
    forall job: Job ensures Read(Write(Obj(ToDict(job)))) == Some(Obj(ToDict(job))) {
      ReadsBack(job);
    }
  }

  // ---- clocks and checksums ----

  const EPOCH := "1970-01-01T00:00:00."

  /** `iso_utc` during the first second of the epoch. */
  function EpochSecond(ms: nat): Result<string> {
    if ms < 1000 then Ok(EPOCH + (Padded(1000 * ms, 10, 6) + "Z")) else Raised
  }

  ghost function Tooling(): Tools {
    Tools(EpochSecond, (s: string) => 0, (v: Json) => if v.Str? then v.s else "", JsonText(Write, Read), JsonText(Write, Read))
  }

  lemma {:induction false} SixDigits(n: nat)
    requires n < 1_000_000
    ensures Text.Fits(n, 10, 6)
  {
    FitsThree(n / 1000);
    assert Text.Fits(n, 10, 6) == Text.Fits(n / 10, 10, 5);
    assert Text.Fits(n / 10, 10, 5) == Text.Fits(n / 10 / 10, 10, 4);
    assert Text.Fits(n / 10 / 10, 10, 4) == Text.Fits(n / 10 / 10 / 10, 10, 3);
  }

  lemma {:induction false} FitsThree(n: nat)
    requires n < 1000
    ensures Text.Fits(n, 10, 3)
  {
    assert Text.Fits(n, 10, 3) == Text.Fits(n / 10, 10, 2);
    FitsTwoDigits(n / 10);
  }

  lemma {:induction false} SecondShape(ms: nat)
    requires ms < 1000
    ensures IsoShape(EpochSecond(ms).value)
  {
    hide Padded;
    BarFree(1000 * ms, 10, 6);
  }

  lemma {:induction false} SecondOrder(m: nat, n: nat)
    requires m < n < 1000
    ensures Less(EpochSecond(m).value, EpochSecond(n).value)
  {
    hide Padded;
    var x, y := Padded(1000 * m, 10, 6), Padded(1000 * n, 10, 6);
    SixDigits(1000 * m);
    SixDigits(1000 * n);
    PaddedOrder(1000 * m, 1000 * n, 10, 6);
    FieldOrder(x, y, "Z", "Z");
    FieldOrder(EPOCH, EPOCH, x + "Z", y + "Z");
  }

  lemma {:induction false} SoundCanHold()
    ensures Rewriting.Sound(Tooling())
  {
    hide Padded, Read, Write, IsoShape, Less;
    var t := Tooling();
    FaithfulCanHold();
    forall n | t.iso(n).Ok? ensures IsoShape(t.iso(n).value) {
      SecondShape(n);
    }
    forall m, n | m < n && t.iso(m).Ok? && t.iso(n).Ok? ensures Less(t.iso(m).value, t.iso(n).value) {
      SecondOrder(m, n);
    }
    forall job: Job ensures Writes(t, JobText(job, t.compact), job) && Writes(t, JobText(job, t.spaced), job) {
      ReadsBack(job);
    }
  }

  lemma {:induction false} RejectsBarsCanHold()
    ensures RejectsBars(Tooling().spaced)
  {
    hide FieldsText, ToDict;
    forall s | HasDepth(s) ensures Read(s) == None {
      forall job: Job ensures FieldsText(ToDict(job)) != s {
        JobTextsStartWithPlus(job);
      }
    }
  }

  lemma {:induction false} JobTextsStartWithPlus(job: Job)
    ensures FieldsText(ToDict(job)) != [] && FieldsText(ToDict(job))[0] == '+'
  {
    hide ToDict, Quoted;
    FirstKey(job);
    QuotedStart(ToDict(job)[0].0);
  }

  lemma {:induction false} FirstKey(job: Job)
    ensures ToDict(job) != [] && ToDict(job)[0].0 != ""
  {
    match job
    case Webfinger(_) => assert |"job_type"| == 8;
    case Actor(_, _) => assert |"actor_id"| == 8;
    case Collection(_, _, _, _) => assert |"collection_id"| == 13;
    case Page(_, _, _, _) => assert |"depth"| == 5;
  }

  lemma {:induction false} QuotedStart(s: string)
    requires s != ""
    ensures Quoted(s) != "" && Quoted(s)[0] == '+'
  {
  }

  // ---- scans ----

  ghost function Listed(queue: map<string, real>): seq<(string, real)>
    decreases |queue|
  {
    if queue == map[] then []
    else
      var m :| m in queue;
      assert (queue - {m}).Keys == queue.Keys - {m};
      [(m, queue[m])] + Listed(queue - {m})
  }

  lemma {:induction false} ListedAll(queue: map<string, real>)
    ensures forall e :: e in Listed(queue) ==> e.0 in queue && queue[e.0] == e.1
    ensures Migrating.Covers(Listed(queue), queue)
    decreases |queue|
  {
    if queue != map[] {
      var m := Listed(queue)[0].0;
      var rest := queue - {m};
      assert rest.Keys == queue.Keys - {m};
      ListedAll(rest);
      assert Listed(queue) == [(m, queue[m])] + Listed(rest);
      forall n | n in queue ensures (n, queue[n]) in Listed(queue) {
        if n != m {
          assert n in rest && (n, rest[n]) in Listed(rest);
        }
      }
    }
  }

  lemma {:induction false} CompleteCanHold(script: Migrating.Script)
    ensures Complete(script, Listed)
  {
    forall queue ensures Migrating.Delivers(script, Listed(queue), queue) && Migrating.Covers(Listed(queue), queue) {
      ListedAll(queue);
      assert forall i :: 0 <= i < |Listed(queue)| ==> Listed(queue)[i] in Listed(queue);
    }
  }

  // ---- webs ----

  /** A hash without collisions. */
  function Numbering(s: string): nat {
    if s == "" then 0 else 1 + s[0] as nat + 0x11_0000 * Numbering(s[1..])
  }

  lemma {:induction false} NumberingTells(a: string, b: string)
    requires Numbering(a) == Numbering(b)
    ensures a == b
  {
    if a != "" && b != "" {
      assert a[0] as nat < 0x11_0000 && b[0] as nat < 0x11_0000;
      NumberingTells(a[1..], b[1..]);
      assert a == [a[0]] + a[1..] && b == [b[0]] + b[1..];
    }
  }

  function Numbered(ids: set<string>): set<nat> {
    set id | id in ids :: Numbering(id)
  }

  /** The same web with that hash and JSON library. */
  ghost function Idealised(env: Env): Env {
    env.(hash := Numbering, json := JsonText(Write, Read))
  }

  /** Every web of finitely many ids can be crawled under the hypotheses of
      `CrawlFromSeeds`, from any seeds of the right kind. */
  lemma {:induction false} FiniteWebsAreFair(env: Env, seeds: seq<Job>, ids: set<string>)
    requires SeedJobs(SeedSet(seeds)) && env.maxDepth <= DEEPEST_LIMIT && forall j :: j in seeds ==> Id(j) in ids
    requires forall j, k :: Id(j) in ids && k in Successors(env, j) ==> Id(k) in ids
    ensures Faithful(Idealised(env).json)
    ensures Fair(Idealised(env), seeds, Numbered(ids))
  {
    hide Numbering, Read, Write;
    var fair, universe := Idealised(env), Numbered(ids);
    FaithfulCanHold();
    forall j, k | Hash(fair, j) == Hash(fair, k) ensures Id(j) == Id(k) {
      NumberingTells(Id(j), Id(k));
    }
    forall j, k | Hash(fair, j) in universe && k in Successors(fair, j) ensures Hash(fair, k) in universe {
      var id :| id in ids && Numbering(id) == Hash(fair, j);
      NumberingTells(id, Id(j));
      assert k in Successors(env, j);
      assert Id(k) in ids && Hash(fair, k) == Numbering(Id(k));
    }
    assert NoCollisions(fair, SeedSet(seeds));
    assert ClosedUniverse(fair, universe);
    forall j | j in seeds ensures Hash(fair, j) in universe {
      assert Id(j) in ids && Hash(fair, j) == Numbering(Id(j));
    }
  }
}
