/**
 Which queue formats the rebuild of the seen set understands (fixup/fixup_seen.py). It
 cuts a member once, at its first bar: that finds the job in `ts|job`, the format of its
 time, and nothing in the formats with a depth in front.
 */
module SeenFormats {
  import opened Options
  import opened JsonValues
  import opened Jobs
  import opened Text
  import opened Codec
  import opened Rewriting
  import opened Rebuilding

  function MemberId(t: Tools, m: string): Option<string> {
    var parts := Split(m, '|', 1);
    if |parts| < 2 then None else KeyId(t, parts[1])
  }

  function KeyId(t: Tools, key: string): Option<string> {
    match t.spaced.loads(key)
    case Some(job) => JobId(job, t.show)
    case None => None
  }

  function ActorId(node: string): string {
    Id(Actor(node, 0))
  }

  /** What the script makes of members, keys and labels. */
  function ScriptIds(t: Tools): Ids {
    Ids(m => MemberId(t, m), key => KeyId(t, key), ActorId)
  }

  /** No JSON text begins with a number and goes on with a bar. */
  ghost predicate RejectsBars(json: JsonText) {
    forall s :: HasDepth(s) ==> json.loads(s) == None
  }

  lemma {:induction false} KeyIdentified(t: Tools, job: Job, text: string)
    requires Rewriting.Sound(t) && Writes(t, text, job)
    ensures KeyId(t, text) == Some(Id(job))
  {
    JobIdOfDict(job, t.show);
  }

  /** A member of the script's own time is known by its job. */
  lemma {:induction false} TimeMemberIdentified(t: Tools, job: Job, ts: string, text: string)
    requires Rewriting.Sound(t) && IsoShape(ts) && Writes(t, text, job)
    ensures MemberId(t, TimeMember(ts, text)) == Some(Id(job))
  {
    SplitField(ts, '|', text, 1);
    assert Split(TimeMember(ts, text), '|', 1) == [ts, text];
    KeyIdentified(t, job, text);
  }

  lemma {:induction false} TwoDigitsFirst(n: nat, rest: string)
    requires n <= 99
    ensures HasDepth(Padded(n, 10, 2) + ['|'] + rest) && '|' !in Padded(n, 10, 2)
  {
    DepthDigits(n);
    BarFree(n, 10, 2);
  }

  /** Anything after a depth and a type is cut too early. */
  lemma {:induction false} CutTooEarly(t: Tools, depth: nat, code: nat, rest: string)
    requires RejectsBars(t.spaced) && depth <= 99 && code <= 99
    ensures MemberId(t, Padded(depth, 10, 2) + ['|'] + (Padded(code, 10, 2) + ['|'] + rest)) == None
  {
    hide Padded, HasDepth;
    var dd, tail := Padded(depth, 10, 2), Padded(code, 10, 2) + ['|'] + rest;
    TwoDigitsFirst(depth, tail);
    TwoDigitsFirst(code, rest);
    SplitField(dd, '|', tail, 1);
    assert Split(dd + ['|'] + tail, '|', 1) == [dd, tail];
  }

  lemma {:induction false} LaterMembersUnidentified(t: Tools, job: Job, ts: string, text: string)
    requires RejectsBars(t.spaced)
    ensures MemberId(t, DepthMember(job, ts, text)) == None && MemberId(t, CrcMember(t, job, ts, text)) == None
  {
    hide Padded, Join, Split;
    var dd, cc := Padded(Clamp(Depth(job)), 10, 2), Padded(TypeCode(job), 10, 2);
    var crc := Padded(t.crc(Id(job)), 16, 8);
    JoinMore(dd, [cc, ts], text);
    JoinMore(cc, [ts], text);
    JoinMore(dd, [cc, crc, ts], text);
    JoinMore(cc, [crc, ts], text);
    assert [dd] + [cc, ts] == [dd, cc, ts] && [cc] + [ts] == [cc, ts];
    assert [dd] + [cc, crc, ts] == [dd, cc, crc, ts] && [cc] + [crc, ts] == [cc, crc, ts];
    CutTooEarly(t, Clamp(Depth(job)), TypeCode(job), Join([ts], '|', text));
    CutTooEarly(t, Clamp(Depth(job)), TypeCode(job), Join([crc, ts], '|', text));
  }

  /** Run before the later rewrites, the script leaves one copy of each queued job that
      is not in flight, failed or fetched. */
  lemma {:induction false} TimesAreDeduped(t: Tools, items: set<Item>, scan: seq<string>, seen: set<string>, x: Item)
    requires Rewriting.Sound(t) && Timed(t, items) && x in items
    requires Covers(scan, Times(t, items)) && NoRepeats(scan)
    ensures var left := Times(t, items) - DroppedMembers(seen, Entries(scan, ScriptIds(t)));
            |Holders(left, ScriptIds(t), Id(x.job))| == if Id(x.job) in seen then 0 else 1
  {
    hide DroppedMembers, Entries, MemberId;
    var queue := Times(t, items);
    var m := TimeMember(Time(t, x), JobText(x.job, t.compact));
    TimeMemberIdentified(t, x.job, Time(t, x), JobText(x.job, t.compact));
    assert m in Holders(queue, ScriptIds(t), Id(x.job));
    OneCopyEach(scan, ScriptIds(t), seen, queue, Id(x.job));
  }

  /** A fetched actor is known under the id its jobs have, at whatever depth. */
  lemma {:induction false} FetchedIdentified(t: Tools, node: string, depth: int)
    requires Rewriting.Sound(t)
    ensures JobId(Obj(ToDict(Actor(node, depth))), t.show) == Some(ScriptIds(t).actor(node))
  {
    JobIdOfDict(Actor(node, depth), t.show);
  }

  /** So no job that is in flight or failed, nor one of a fetched actor, is left in the queue. */
  lemma {:induction false} ElsewhereIsDropped(t: Tools, items: set<Item>, scan: seq<string>, inflight: seq<string>, failed: seq<string>,
                                  nodes: seq<(string, bool)>, x: Item)
    requires Rewriting.Sound(t) && Timed(t, items) && x in items && Covers(scan, Times(t, items)) && NoRepeats(scan)
    requires || (exists text :: text in inflight + failed && Writes(t, text, x.job))
             || (x.job.Actor? && (x.job.actorId, true) in nodes)
    ensures var seen := KeyIds(inflight, ScriptIds(t)) + KeyIds(failed, ScriptIds(t)) + FetchedIds(nodes, ScriptIds(t));
            var left := Times(t, items) - DroppedMembers(seen, Entries(scan, ScriptIds(t)));
            Holders(left, ScriptIds(t), Id(x.job)) == {}
  {
    hide DroppedMembers, Entries, MemberId, Times, Holders;
    var seen := KeyIds(inflight, ScriptIds(t)) + KeyIds(failed, ScriptIds(t)) + FetchedIds(nodes, ScriptIds(t));
    if text :| text in inflight + failed && Writes(t, text, x.job) {
      KeyIdentified(t, x.job, text);
      assert ScriptIds(t).key(text) == Some(Id(x.job));
    } else {
      FetchedIdentified(t, x.job.actorId, x.job.depth);
      JobIdOfDict(x.job, t.show);
      assert ScriptIds(t).actor((x.job.actorId, true).0) == Id(x.job);
    }
    TimesAreDeduped(t, items, scan, seen, x);
  }

  /** Run after the second or third rewrite, it identifies nothing: the queue stays as
      it is, duplicates and all, and none of its jobs gets into the seen set. */
  lemma {:induction false} LaterQueuesUntouched(t: Tools, items: set<Item>, scan: seq<string>, seen: set<string>)
    requires RejectsBars(t.spaced) && Timed(t, items)
    requires forall m :: m in scan ==> m in Depths(t, items) || m in Crcs(t, items)
    ensures Entries(scan, ScriptIds(t)) == [] && DroppedMembers(seen, Entries(scan, ScriptIds(t))) == {}
  {
    hide MemberId, DepthMember, CrcMember;
    forall m | m in scan ensures MemberId(t, m) == None {
      var x :| x in items && (m == DepthMember(x.job, Time(t, x), JobText(x.job, t.spaced)) ||
                              m == CrcMember(t, x.job, Time(t, x), JobText(x.job, t.spaced)));
      LaterMembersUnidentified(t, x.job, Time(t, x), JobText(x.job, t.spaced));
    }
    NothingIdentified(scan, ScriptIds(t));
  }

  lemma {:induction false} NothingIdentified(scan: seq<string>, ids: Ids)
    requires forall m :: m in scan ==> ids.member(m) == None
    ensures Entries(scan, ids) == []
  {
    if scan != [] {
      NothingIdentified(scan[..|scan| - 1], ids);
    }
  }
}
