/**
 Queue members (pub_crawler/dispatcher.py): the text `depth|type|crc|ts|job`
 whose bytewise order is the order the queue hands jobs out in.

 `crc32`, `iso_utc` and `orjson` are outside the model: a member carries the
 checksum and timestamp text it was built with, and `JsonText` is any writer and
 reader of JSON.
 */
module Codec {
  import opened Options
  import opened JsonValues
  import opened Jobs
  import opened Text

  datatype JsonText = JsonText(dumps: Json -> string, loads: string -> Option<Json>)

  /** Reading undoes writing for the dictionaries the crawler writes. */
  ghost predicate Faithful(json: JsonText) {
    forall job: Job :: json.loads(json.dumps(Obj(ToDict(job)))) == Some(Obj(ToDict(job)))
  }

  /** Width of `iso_utc`: a four-digit year down to microseconds and the `Z`. */
  const TS_WIDTH: nat := 27

  predicate TimestampText(ts: string) {
    |ts| == TS_WIDTH && '|' !in ts
  }

  function Distance(m: int, n: int): nat {
    if m < n then n - m else m - n
  }

  datatype Member = Member(depth: nat, code: nat, crc: nat, ts: string, job: Job)

  /** The depth nearest to `n` that two digits can hold. */
  function Clamp(n: int): (r: nat)
    ensures r <= 99
    ensures forall k :: 0 <= k <= 99 ==> Distance(r, n) <= Distance(k, n)
  {
    if n > 99 then 99 else if n < 0 then 0 else n
  }

  /** `_job_to_member`, before it is written out as text. */
  function MemberOf(job: Job, crc: string -> nat, ts: string): Member {
    Member(Clamp(Depth(job)), TypeCode(job), crc(Id(job)), ts, job)
  }

  predicate WellFormed(m: Member) {
    m.depth <= 99 && m.code <= 99 && m.crc < 0x1_0000_0000 && TimestampText(m.ts)
  }

  function JobText(job: Job, json: JsonText): string {
    json.dumps(Obj(ToDict(job)))
  }

  function Fields(m: Member): seq<string> {
    [Padded(m.depth, 10, 2), Padded(m.code, 10, 2), Padded(m.crc, 16, 8), m.ts]
  }

  function Render(m: Member, json: JsonText): string {
    Join(Fields(m), '|', JobText(m.job, json))
  }

  /** `_member_to_job`: four cuts, the rest is the job; fewer fields raise. */
  function ParseMember(member: string, json: JsonText): Option<Json> {
    var parts := Split(member, '|', 4);
    if |parts| == 5 then json.loads(parts[4]) else None
  }

  /** The job a handler gets from a member. */
  function JobIn(member: string, json: JsonText): Option<Job> {
    match ParseMember(member, json)
    case Some(Obj(fields)) => FromDict(fields)
    case _ => None
  }

  // ---- decoding undoes encoding ----

  lemma {:induction false} SplitMember(m: Member, json: JsonText)
    requires WellFormed(m)
    ensures Split(Render(m, json), '|', 4) == Fields(m) + [JobText(m.job, json)]
  {
    BarFree(m.depth, 10, 2);
    BarFree(m.code, 10, 2);
    BarFree(m.crc, 16, 8);
    SplitJoin(Fields(m), '|', JobText(m.job, json));
  }

  lemma {:induction false} BarFree(n: nat, base: nat, width: nat)
    requires 2 <= base <= 16
    ensures '|' !in Padded(n, base, width)
  {
  }

  /** The job read back is the job written, whatever `|` its JSON holds. */
  lemma {:induction false} ParseRender(m: Member, json: JsonText)
    requires WellFormed(m) && Faithful(json)
    ensures ParseMember(Render(m, json), json) == Some(Obj(ToDict(m.job))) && JobIn(Render(m, json), json) == Some(m.job)
  {
    SplitMember(m, json);
    FromToDict(m.job);
  }

  lemma {:induction false} DictInjective(a: Job, b: Job)
    requires ToDict(a) == ToDict(b)
    ensures a == b
  {
    FromToDict(a);
    FromToDict(b);
  }

  lemma {:induction false} JobTextInjective(a: Job, b: Job, json: JsonText)
    requires Faithful(json) && JobText(a, json) == JobText(b, json)
    ensures a == b
  {
    assert json.loads(JobText(a, json)) == Some(Obj(ToDict(a)));
    assert json.loads(JobText(b, json)) == Some(Obj(ToDict(b)));
    DictInjective(a, b);
  }

  // ---- the order of members ----

  /** Strictly smaller (depth, type, crc). */
  predicate KeyBefore(a: Member, b: Member) {
    a.depth < b.depth || (a.depth == b.depth && (a.code < b.code || (a.code == b.code && a.crc < b.crc)))
  }

  predicate SameKey(a: Member, b: Member) {
    a.depth == b.depth && a.code == b.code && a.crc == b.crc
  }

  /** Depth, then type, then crc, then timestamp, then the job text. */
  predicate Before(a: Member, b: Member, json: JsonText) {
    KeyBefore(a, b) ||
    (SameKey(a, b) && (Less(a.ts, b.ts) || (a.ts == b.ts && Less(JobText(a.job, json), JobText(b.job, json)))))
  }

  /** Redis compares the texts; what comes out is numeric order on the fields. */
  lemma {:induction false} RenderOrder(a: Member, b: Member, json: JsonText)
    requires WellFormed(a) && WellFormed(b)
    ensures Less(Render(a, json), Render(b, json)) <==> Before(a, b, json)
  {
    var x, y := JobText(a.job, json), JobText(b.job, json);
    JoinOrder(Fields(a), Fields(b), x, y);
    TwoDigitOrder(a.depth, b.depth);
    TwoDigitOrder(a.code, b.code);
    EightHexOrder(a.crc, b.crc);
  }

  /** Four separated fields of equal widths compare field by field. */
  lemma {:induction false} JoinOrder(p: seq<string>, q: seq<string>, x: string, y: string)
    requires |p| == 4 && |q| == 4 && forall i :: 0 <= i < 4 ==> |p[i]| == |q[i]|
    ensures Less(Join(p, '|', x), Join(q, '|', y)) <==>
            Less(p[0], q[0]) || (p[0] == q[0] && (Less(p[1], q[1]) || (p[1] == q[1] && (Less(p[2], q[2]) ||
            (p[2] == q[2] && (Less(p[3], q[3]) || (p[3] == q[3] && Less(x, y))))))))
  {
    BarredOrder(p[0], q[0], Join(p[1..], '|', x), Join(q[1..], '|', y));
    BarredOrder(p[1], q[1], Join(p[2..], '|', x), Join(q[2..], '|', y));
    BarredOrder(p[2], q[2], Join(p[3..], '|', x), Join(q[3..], '|', y));
    BarredOrder(p[3], q[3], x, y);
    JoinTail(p, x);
    JoinTail(q, y);
  }

  lemma {:induction false} JoinTail(p: seq<string>, x: string)
    requires |p| == 4
    ensures Join(p[1..], '|', x) == p[1] + ['|'] + Join(p[2..], '|', x)
    ensures Join(p[2..], '|', x) == p[2] + ['|'] + Join(p[3..], '|', x)
    ensures Join(p[3..], '|', x) == p[3] + ['|'] + x
  {
    assert p[1..][1..] == p[2..] && p[2..][1..] == p[3..] && p[3..][1..] == [];
  }

  lemma {:induction false} BarredOrder(p: string, q: string, x: string, y: string)
    requires |p| == |q|
    ensures Less(p + ['|'] + x, q + ['|'] + y) <==> Less(p, q) || (p == q && Less(x, y))
  {
    FieldOrder(p + ['|'], q + ['|'], x, y);
    FieldOrder(p, q, ['|'], ['|']);
    assert (p + ['|'])[..|p|] == p && (q + ['|'])[..|p|] == q;
  }

  lemma {:induction false} TwoDigitOrder(m: nat, n: nat)
    requires m <= 99 && n <= 99
    ensures Less(Padded(m, 10, 2), Padded(n, 10, 2)) <==> m < n
    ensures Padded(m, 10, 2) == Padded(n, 10, 2) <==> m == n
  {
    FitsTwoDigits(m);
    FitsTwoDigits(n);
    PaddedOrder(m, n, 10, 2);
  }

  lemma {:induction false} EightHexOrder(m: nat, n: nat)
    requires m < 0x1_0000_0000 && n < 0x1_0000_0000
    ensures Less(Padded(m, 16, 8), Padded(n, 16, 8)) <==> m < n
    ensures Padded(m, 16, 8) == Padded(n, 16, 8) <==> m == n
  {
    FitsEightHexDigits(m);
    FitsEightHexDigits(n);
    PaddedOrder(m, n, 16, 8);
  }

  lemma {:induction false} BeforeTotal(a: Member, b: Member, json: JsonText)
    requires Faithful(json)
    ensures Before(a, b, json) || Before(b, a, json) || a == b
    ensures !(Before(a, b, json) && Before(b, a, json))
  {
    LessTotal(a.ts, b.ts);
    LessTotal(JobText(a.job, json), JobText(b.job, json));
    if JobText(a.job, json) == JobText(b.job, json) {
      JobTextInjective(a.job, b.job, json);
    }
  }

  lemma {:induction false} BeforeTransitive(a: Member, b: Member, c: Member, json: JsonText)
    requires Before(a, b, json) && Before(b, c, json)
    ensures Before(a, c, json)
  {
    if Less(a.ts, b.ts) && Less(b.ts, c.ts) {
      LessTransitive(a.ts, b.ts, c.ts);
    }
    var x, y, z := JobText(a.job, json), JobText(b.job, json), JobText(c.job, json);
    if Less(x, y) && Less(y, z) {
      LessTransitive(x, y, z);
    }
  }

  /** How the queue orders two jobs of different depths: shallow first, unless the
      clamp writes both depths alike (both above 98, or neither above 0). Then the
      type, the checksum, the time of arrival and the text decide. */
  lemma {:induction false} ClampInvertsDepths(a: Job, b: Job, s: string, t: string, crc: string -> nat, json: JsonText)
    requires Depth(a) < Depth(b)
    requires crc(Id(a)) < 0x1_0000_0000 && crc(Id(b)) < 0x1_0000_0000 && TimestampText(s) && TimestampText(t)
    ensures Less(Render(MemberOf(a, crc, s), json), Render(MemberOf(b, crc, t), json)) <==>
            || (Depth(a) < 99 && 0 < Depth(b))
            || TypeCode(a) < TypeCode(b)
            || (TypeCode(a) == TypeCode(b) && (crc(Id(a)) < crc(Id(b)) || (crc(Id(a)) == crc(Id(b)) &&
                 (Less(s, t) || (s == t && Less(JobText(a, json), JobText(b, json)))))))
  {
    RenderOrder(MemberOf(a, crc, s), MemberOf(b, crc, t), json);
  }

  // ---- draining a queue ----

  predicate IsFirst(m: Member, queue: set<Member>, json: JsonText) {
    m in queue && forall x :: x in queue ==> x == m || Before(m, x, json)
  }

  /** The text Redis finds first among those of the queue. */
  predicate HasLeastText(m: Member, queue: set<Member>, json: JsonText) {
    m in queue && forall x :: x in queue ==> x == m || Less(Render(m, json), Render(x, json))
  }

  lemma {:induction false} FirstHasLeastText(m: Member, queue: set<Member>, json: JsonText)
    requires forall x :: x in queue ==> WellFormed(x)
    ensures IsFirst(m, queue, json) <==> HasLeastText(m, queue, json)
  {
    hide Less, Before, Render, WellFormed;
    if m in queue {
      forall x | x in queue ensures Less(Render(m, json), Render(x, json)) <==> Before(m, x, json) {
        RenderOrder(m, x, json);
      }
    }
  }

  /** Members of one text are one member, so a set of texts stands for the set of members. */
  lemma {:induction false} RenderInjective(a: Member, b: Member, json: JsonText)
    requires WellFormed(a) && WellFormed(b) && Faithful(json) && Render(a, json) == Render(b, json)
    ensures a == b
  {
    hide Before, Render, WellFormed;
    BeforeTotal(a, b, json);
    RenderOrder(a, b, json);
    RenderOrder(b, a, json);
    LessTotal(Render(a, json), Render(b, json));
  }

  /** A sorted set always has a first member for BZPOPMIN to pop. */
  lemma {:induction false} FirstExists(queue: set<Member>, json: JsonText)
    requires queue != {} && Faithful(json)
    ensures exists m :: IsFirst(m, queue, json)
  {
    var m :| m in queue;
    var rest := queue - {m};
    assert queue == rest + {m};
    if rest == {} {
      assert IsFirst(m, queue, json);
    } else {
      FirstExists(rest, json);
      var n :| IsFirst(n, rest, json);
      BeforeTotal(m, n, json);
      if Before(n, m, json) {
        assert IsFirst(n, queue, json);
      } else {
        forall x | x in queue ensures x == m || Before(m, x, json) {
          if x in rest && x != n {
            BeforeTransitive(m, n, x, json);
          }
        }
        assert IsFirst(m, queue, json);
      }
    }
  }

  ghost function First(queue: set<Member>, json: JsonText): (m: Member)
    requires queue != {} && Faithful(json)
    ensures IsFirst(m, queue, json)
  {
    FirstExists(queue, json);
    var m :| IsFirst(m, queue, json);
    m
  }

  ghost function Drain(queue: set<Member>, json: JsonText): (jobs: seq<Job>)
    requires Faithful(json)
    ensures |jobs| == |queue|
    decreases |queue|
  {
    if queue == {} then []
    else var m := First(queue, json); [m.job] + Drain(queue - {m}, json)
  }

  function JobsOf(q: set<Member>): set<Job> {
    set m | m in q :: m.job
  }

  ghost predicate KeysDistinct(q: set<Member>) {
    forall m, n :: m in q && n in q && SameKey(m, n) ==> m == n
  }

  predicate Built(q: set<Member>, crc: string -> nat) {
    forall m :: m in q ==> m == MemberOf(m.job, crc, m.ts)
  }

  lemma {:induction false} DrainIgnoresTimestamps(p: set<Member>, q: set<Member>, crc: string -> nat, json: JsonText)
    requires Faithful(json) && Built(p, crc) && Built(q, crc) && KeysDistinct(p) && KeysDistinct(q)
    requires JobsOf(p) == JobsOf(q)
    ensures Drain(p, json) == Drain(q, json)
    decreases |p|
  {
    if p == {} || q == {} {
      NoJobs(p);
      NoJobs(q);
    } else {
      var a, b := First(p, json), First(q, json);
      FirstJobAgrees(p, q, a, b, crc, json);
      JobsOfWithout(p, a, crc);
      JobsOfWithout(q, b, crc);
      DrainIgnoresTimestamps(p - {a}, q - {b}, crc, json);
    }
  }

  lemma {:induction false} NoJobs(q: set<Member>)
    ensures JobsOf(q) == {} <==> q == {}
  {
    if q != {} {
      var m :| m in q;
      assert m.job in JobsOf(q);
    }
  }

  lemma {:induction false} FirstJobAgrees(p: set<Member>, q: set<Member>, a: Member, b: Member, crc: string -> nat, json: JsonText)
    requires Built(p, crc) && Built(q, crc) && KeysDistinct(p) && KeysDistinct(q)
    requires JobsOf(p) == JobsOf(q) && IsFirst(a, p, json) && IsFirst(b, q, json)
    ensures a.job == b.job
  {
    assert a.job in JobsOf(q) && b.job in JobsOf(p);
    var a' :| a' in q && a'.job == a.job;
    var b' :| b' in p && b'.job == b.job;
    assert SameKey(a, a') && SameKey(b, b');
  }

  lemma {:induction false} JobsOfWithout(q: set<Member>, m: Member, crc: string -> nat)
    requires Built(q, crc) && KeysDistinct(q) && m in q
    ensures JobsOf(q - {m}) == JobsOf(q) - {m.job}
  {
    forall n | n in q && n.job == m.job ensures n == m {
      assert SameKey(m, n);
    }
  }

  /** The queue after enqueueing `jobs` one by one at the times `ts`. */
  function Enqueued(jobs: seq<Job>, ts: seq<string>, crc: string -> nat): set<Member>
    requires |jobs| == |ts|
  {
    set i | 0 <= i < |jobs| :: MemberOf(jobs[i], crc, ts[i])
  }

  ghost predicate DistinctKeys(jobs: seq<Job>, crc: string -> nat) {
    forall i, j :: 0 <= i < j < |jobs| ==> !SameKey(MemberOf(jobs[i], crc, ""), MemberOf(jobs[j], crc, ""))
  }

  /** Jobs with distinct (depth, type, crc) come out in one fixed order, however
      and whenever they were put in. */
  lemma {:induction false} DrainIgnoresArrival(jobs: seq<Job>, ts: seq<string>, jobs': seq<Job>, ts': seq<string>,
                            crc: string -> nat, json: JsonText)
    requires |jobs| == |ts| && |jobs'| == |ts'| && Faithful(json)
    requires DistinctKeys(jobs, crc) && DistinctKeys(jobs', crc)
    requires forall j :: j in jobs <==> j in jobs'
    ensures Drain(Enqueued(jobs, ts, crc), json) == Drain(Enqueued(jobs', ts', crc), json)
  {
    var p, q := Enqueued(jobs, ts, crc), Enqueued(jobs', ts', crc);
    EnqueuedJobs(jobs, ts, crc);
    EnqueuedJobs(jobs', ts', crc);
    assert JobsOf(p) == JobsOf(q);
    DrainIgnoresTimestamps(p, q, crc, json);
  }

  lemma {:induction false} EnqueuedJobs(jobs: seq<Job>, ts: seq<string>, crc: string -> nat)
    requires |jobs| == |ts| && DistinctKeys(jobs, crc)
    ensures var q := Enqueued(jobs, ts, crc);
            Built(q, crc) && KeysDistinct(q) && forall j :: j in JobsOf(q) <==> j in jobs
  {
    var q := Enqueued(jobs, ts, crc);
    forall j | j in jobs ensures j in JobsOf(q) {
      var k :| 0 <= k < |jobs| && jobs[k] == j;
      assert MemberOf(jobs[k], crc, ts[k]) in q;
    }
    forall m, n | m in q && n in q && SameKey(m, n) ensures m == n {
      var k :| 0 <= k < |jobs| && m == MemberOf(jobs[k], crc, ts[k]);
      var l :| 0 <= l < |jobs| && n == MemberOf(jobs[l], crc, ts[l]);
      assert SameKey(MemberOf(jobs[k], crc, ""), MemberOf(jobs[l], crc, ""));
      assert SameKey(MemberOf(jobs[l], crc, ""), MemberOf(jobs[k], crc, ""));
      assert k == l;
    }
  }

  /** The condition is needed: two jobs that tie on (depth, type, crc) come out in
      the order they went in. */
  lemma {:induction false} TiesFollowArrival(a: Job, b: Job, early: string, late: string, crc: string -> nat, json: JsonText)
    requires a != b && Faithful(json) && Less(early, late)
    requires SameKey(MemberOf(a, crc, ""), MemberOf(b, crc, ""))
    ensures Drain(Enqueued([a, b], [early, late], crc), json) == [a, b]
    ensures Drain(Enqueued([b, a], [early, late], crc), json) == [b, a]
  {
    DrainPair(a, b, early, late, crc, json);
    DrainPair(b, a, early, late, crc, json);
  }

  lemma {:induction false} DrainPair(a: Job, b: Job, early: string, late: string, crc: string -> nat, json: JsonText)
    requires a != b && Faithful(json) && Less(early, late)
    requires SameKey(MemberOf(a, crc, ""), MemberOf(b, crc, ""))
    ensures Drain(Enqueued([a, b], [early, late], crc), json) == [a, b]
  {
    var m, n := MemberOf(a, crc, early), MemberOf(b, crc, late);
    var queue := Enqueued([a, b], [early, late], crc);
    assert queue == {m, n} by {
      assert [a, b][0] == a && [a, b][1] == b;
      assert [early, late][0] == early && [early, late][1] == late;
    }
    BeforeTotal(m, n, json);
    assert First(queue, json) == m;
    assert queue - {m} == {n};
    assert First({n}, json) == n;
    assert {n} - {n} == {};
    assert Drain({}, json) == [];
    assert Drain({n}, json) == [b];
  }
}
