/**
 Rebuilding the seen set and dropping duplicates from the queue (fixup/fixup_seen.py),
 with the crawler stopped.

 `Ids` says what `json.loads` and `job_id` make of a queue member and of an in-flight
 or failed key: `None` for text that does not parse or names no job.
 */
module Rebuilding {
  import opened Options

  datatype Ids = Ids(member: string -> Option<string>, key: string -> Option<string>, actor: string -> string)

  /** A queue member and the job id it names. */
  type Entry = (string, string)

  /** Seen set and queue, and how many entries were kept and dropped so far. */
  datatype Tally = Tally(seen: set<string>, queue: set<string>, kept: nat, dropped: nat)

  /** The first entry of an id is kept; any other leaves the queue. */
  function Sift(t: Tally, e: Entry): Tally {
    if e.1 in t.seen then t.(queue := t.queue - {e.0}, dropped := t.dropped + 1)
    else t.(seen := t.seen + {e.1}, kept := t.kept + 1)
  }

  function SiftAll(t: Tally, entries: seq<Entry>): Tally {
    if entries == [] then t
    else Sift(SiftAll(t, entries[..|entries| - 1]), entries[|entries| - 1])
  }

  lemma {:induction false} SiftBatches(t: Tally, a: seq<Entry>, b: seq<Entry>)
    ensures SiftAll(t, a + b) == SiftAll(SiftAll(t, a), b)
    decreases |b|
  {
    if b == [] {
      assert a + b == a;
    } else {
      var n := |b| - 1;
      assert (a + b)[..|a + b| - 1] == a + b[..n] && (a + b)[|a + b| - 1] == b[n];
      SiftBatches(t, a, b[..n]);
    }
  }

  /** The identifiable members of a scan, in its order. */
  function Entries(scan: seq<string>, ids: Ids): seq<Entry> {
    if scan == [] then []
    else
      var m := scan[|scan| - 1];
      Entries(scan[..|scan| - 1], ids) + if ids.member(m).Some? then [(m, ids.member(m).value)] else []
  }

  lemma {:induction false} EntriesOneMore(scan: seq<string>, m: string, ids: Ids)
    ensures Entries(scan + [m], ids) == Entries(scan, ids) + if ids.member(m).Some? then [(m, ids.member(m).value)] else []
  {
    assert (scan + [m])[..|scan|] == scan;
  }

  function IdsOf(entries: seq<Entry>): set<string> {
    set e | e in entries :: e.1
  }

  /** Entry `k` is the first of its id, and the id was not seen before. */
  predicate Kept(seen: set<string>, entries: seq<Entry>, k: nat)
    requires k < |entries|
  {
    entries[k].1 !in seen && forall j :: 0 <= j < k ==> entries[j].1 != entries[k].1
  }

  function DroppedMembers(seen: set<string>, entries: seq<Entry>): set<string> {
    set k | 0 <= k < |entries| && !Kept(seen, entries, k) :: entries[k].0
  }

  /** What a sift leaves, whatever the order: the counts depend only on which ids
      there are. */
  ghost predicate Leaves(t: Tally, r: Tally, ids: set<string>, dropped: set<string>, n: nat) {
    && r.seen == t.seen + ids && r.queue == t.queue - dropped
    && r.kept == t.kept + |ids - t.seen| && r.kept + r.dropped == t.kept + t.dropped + n
  }

  lemma {:induction false} SiftOneMore(t: Tally, r: Tally, e: Entry, ids: set<string>, dropped: set<string>, n: nat)
    requires Leaves(t, r, ids, dropped, n)
    ensures Leaves(t, Sift(r, e), ids + {e.1}, dropped + if e.1 !in t.seen + ids then {} else {e.0}, n + 1)
  {
    NewIds(ids, t.seen, e.1);
    if e.1 in t.seen + ids {
      assert t.seen + ids == t.seen + (ids + {e.1}) && t.queue - dropped - {e.0} == t.queue - (dropped + {e.0});
    } else {
      assert t.seen + ids + {e.1} == t.seen + (ids + {e.1}) && dropped + {} == dropped;
    }
  }

  lemma {:induction false} SiftLeaves(t: Tally, entries: seq<Entry>)
    ensures Leaves(t, SiftAll(t, entries), IdsOf(entries), DroppedMembers(t.seen, entries), |entries|)
  {
    if entries == [] {
      assert IdsOf(entries) - t.seen == {} && DroppedMembers(t.seen, entries) == {};
    } else {
      hide Kept, IdsOf, DroppedMembers, Leaves, Sift;
      var n := |entries| - 1;
      var most, e := entries[..n], entries[n];
      SiftLeaves(t, most);
      LastEntry(t.seen, entries);
      SiftOneMore(t, SiftAll(t, most), e, IdsOf(most), DroppedMembers(t.seen, most), n);
    }
  }

  lemma {:induction false} NewIds(ids: set<string>, seen: set<string>, id: string)
    ensures |ids + {id} - seen| == |ids - seen| + if id in seen + ids then 0 else 1
  {
    assert ids + {id} - seen == (ids - seen) + if id in seen then {} else {id};
    if id in seen + ids {
      assert ids + {id} - seen == ids - seen;
    }
  }

  lemma {:induction false} LastEntry(seen: set<string>, entries: seq<Entry>)
    requires entries != []
    ensures var n := |entries| - 1;
            var most, e := entries[..n], entries[n];
            && IdsOf(entries) == IdsOf(most) + {e.1} && (Kept(seen, entries, n) <==> e.1 !in seen + IdsOf(most))
            && DroppedMembers(seen, entries) == DroppedMembers(seen, most) + if Kept(seen, entries, n) then {} else {e.0}
  {
    var n := |entries| - 1;
    var most, e := entries[..n], entries[n];
    assert entries == most + [e];
    forall id | id in IdsOf(most) ensures exists j :: 0 <= j < n && entries[j].1 == id {
      var x :| x in most && x.1 == id;
      var j :| 0 <= j < n && most[j] == x;
      assert entries[j].1 == id;
    }
    assert forall j :: 0 <= j < n ==> entries[j] in most && (Kept(seen, entries, j) <==> Kept(seen, most, j));
    forall m | m in DroppedMembers(seen, most) ensures m in DroppedMembers(seen, entries) {
      var k :| 0 <= k < n && !Kept(seen, most, k) && most[k].0 == m;
      assert !Kept(seen, entries, k) && entries[k].0 == m;
    }
  }

  // ---- one copy of each job ----

  /** The scan hands out the members of the queue, each at least once. */
  ghost predicate Covers(scan: seq<string>, queue: set<string>) {
    forall m :: m in scan <==> m in queue
  }

  ghost predicate NoRepeats(scan: seq<string>) {
    forall j, k :: 0 <= j < k < |scan| ==> scan[j] != scan[k]
  }

  /** `m` is delivered, as the first of its id, and not delivered again. */
  ghost predicate KeptOnce(seen: set<string>, entries: seq<Entry>, m: string) {
    exists k :: 0 <= k < |entries| && Kept(seen, entries, k) && entries[k].0 == m && !Again(entries, k)
  }

  predicate Again(entries: seq<Entry>, k: nat)
    requires k < |entries|
  {
    exists j :: k < j < |entries| && entries[j].0 == entries[k].0
  }

  lemma {:induction false} EntriesAreMembers(scan: seq<string>, ids: Ids)
    ensures forall e :: e in Entries(scan, ids) <==> e.0 in scan && ids.member(e.0) == Some(e.1)
  {
    if scan != [] {
      var most, m := scan[..|scan| - 1], scan[|scan| - 1];
      EntriesAreMembers(most, ids);
      assert scan == most + [m];
    }
  }

  lemma {:induction false} EntriesRepeat(scan: seq<string>, ids: Ids)
    ensures NoRepeats(scan) ==> forall j, k :: 0 <= j < k < |Entries(scan, ids)| ==> Entries(scan, ids)[j].0 != Entries(scan, ids)[k].0
  {
    if scan != [] && NoRepeats(scan) {
      var n := |scan| - 1;
      var most := scan[..n];
      assert NoRepeats(most) && scan[n] !in most;
      EntriesRepeat(most, ids);
      EntriesAreMembers(most, ids);
      assert forall j :: 0 <= j < |Entries(most, ids)| ==> Entries(most, ids)[j] in Entries(most, ids);
    }
  }

  /** An identifiable member survives exactly when it is the first delivered of an id
      not seen elsewhere, and the scan does not deliver it again. */
  lemma {:induction false} SurvivesIfKeptOnce(scan: seq<string>, ids: Ids, seen: set<string>, queue: set<string>, m: string)
    requires Covers(scan, queue) && m in queue && ids.member(m).Some?
    ensures m in queue - DroppedMembers(seen, Entries(scan, ids)) <==> KeptOnce(seen, Entries(scan, ids), m)
  {
    var entries := Entries(scan, ids);
    EntriesAreMembers(scan, ids);
    assert forall k :: 0 <= k < |entries| ==> entries[k] in entries;
    assert (m, ids.member(m).value) in entries;
    var i :| 0 <= i < |entries| && entries[i] == (m, ids.member(m).value);
    if k :| 0 <= k < |entries| && Kept(seen, entries, k) && entries[k].0 == m && !Again(entries, k) {
      forall j | 0 <= j < |entries| && !Kept(seen, entries, j) ensures entries[j].0 != m {
        if j < k {
          assert entries[j].1 != entries[k].1;
        }
      }
    } else if Kept(seen, entries, i) {
      var j :| i < j < |entries| && entries[j].0 == entries[i].0;
      assert !Kept(seen, entries, j) && entries[j].0 == m;
    } else {
      assert !Kept(seen, entries, i) && entries[i].0 == m;
    }
  }

  /** Jobs the queue holds under an id. */
  function Holders(queue: set<string>, ids: Ids, id: string): set<string> {
    set m | m in queue && ids.member(m) == Some(id)
  }

  lemma {:induction false} FirstOf(entries: seq<Entry>, i: nat) returns (k: nat)
    requires i < |entries|
    ensures k <= i && entries[k].1 == entries[i].1 && forall j :: 0 <= j < k ==> entries[j].1 != entries[k].1
  {
    k := 0;
    while entries[k].1 != entries[i].1
      invariant k <= i && forall j :: 0 <= j < k ==> entries[j].1 != entries[i].1
      decreases i - k
    {
      k := k + 1;
    }
  }

  lemma {:induction false} NoCopyOfSeen(scan: seq<string>, ids: Ids, seen: set<string>, queue: set<string>, id: string)
    requires Covers(scan, queue) && id in seen
    ensures Holders(queue - DroppedMembers(seen, Entries(scan, ids)), ids, id) == {}
  {
    var entries := Entries(scan, ids);
    EntriesAreMembers(scan, ids);
    forall m | m in queue && ids.member(m) == Some(id) ensures m in DroppedMembers(seen, entries) {
      assert (m, id) in entries;
      var i :| 0 <= i < |entries| && entries[i] == (m, id);
      assert !Kept(seen, entries, i) && entries[i].0 == m;
    }
  }

  lemma {:induction false} SurvivorIsFirst(scan: seq<string>, ids: Ids, seen: set<string>, queue: set<string>, id: string, k: nat)
    requires Covers(scan, queue) && NoRepeats(scan) && k < |Entries(scan, ids)|
    requires Kept(seen, Entries(scan, ids), k) && Entries(scan, ids)[k].1 == id
    ensures Holders(queue - DroppedMembers(seen, Entries(scan, ids)), ids, id) == {Entries(scan, ids)[k].0}
  {
    var entries := Entries(scan, ids);
    EntriesAreMembers(scan, ids);
    EntriesRepeat(scan, ids);
    assert forall i :: 0 <= i < |entries| ==> entries[i] in entries;
    assert !Again(entries, k);
    SurvivesIfKeptOnce(scan, ids, seen, queue, entries[k].0);
    forall m | m in queue && ids.member(m) == Some(id) && m != entries[k].0 ensures m in DroppedMembers(seen, entries) {
      assert (m, id) in entries;
      var i :| 0 <= i < |entries| && entries[i] == (m, id);
      assert entries[i].1 == entries[k].1 && k < i;
      assert !Kept(seen, entries, i);
    }
  }

  lemma {:induction false} UnidentifiedStay(scan: seq<string>, ids: Ids, seen: set<string>, m: string)
    requires ids.member(m) == None
    ensures m !in DroppedMembers(seen, Entries(scan, ids))
  {
    EntriesAreMembers(scan, ids);
    assert forall i :: 0 <= i < |Entries(scan, ids)| ==> Entries(scan, ids)[i] in Entries(scan, ids);
  }

  /** With each member delivered once, exactly one copy of each queued job remains,
      and none of a job that is in flight, failed or fetched. */
  lemma {:induction false} OneCopyEach(scan: seq<string>, ids: Ids, seen: set<string>, queue: set<string>, id: string)
    requires Covers(scan, queue) && NoRepeats(scan)
    ensures |Holders(queue - DroppedMembers(seen, Entries(scan, ids)), ids, id)| ==
            if id in seen || Holders(queue, ids, id) == {} then 0 else 1
  {
    var entries := Entries(scan, ids);
    var left := queue - DroppedMembers(seen, entries);
    if id in seen {
      NoCopyOfSeen(scan, ids, seen, queue, id);
    } else if Holders(queue, ids, id) == {} {
      assert forall m :: m in left ==> m in queue && m !in Holders(queue, ids, id);
      assert Holders(left, ids, id) == {};
    } else {
      hide DroppedMembers;
      var m :| m in Holders(queue, ids, id);
      EntriesAreMembers(scan, ids);
      assert (m, id) in entries;
      var i :| 0 <= i < |entries| && entries[i] == (m, id);
      var k := FirstOf(entries, i);
      SurvivorIsFirst(scan, ids, seen, queue, id, k);
    }
  }

  /** Sifting what a sift left drops nothing more, in any order. */
  lemma {:induction false} SecondRunKeepsAll(scan: seq<string>, scan': seq<string>, ids: Ids, seen: set<string>, queue: set<string>)
    requires Covers(scan, queue) && NoRepeats(scan)
    requires Covers(scan', queue - DroppedMembers(seen, Entries(scan, ids))) && NoRepeats(scan')
    ensures DroppedMembers(seen, Entries(scan', ids)) == {}
    ensures IdsOf(Entries(scan', ids)) + seen == IdsOf(Entries(scan, ids)) + seen
  {
    var left := queue - DroppedMembers(seen, Entries(scan, ids));
    var entries, entries' := Entries(scan, ids), Entries(scan', ids);
    EntriesAreMembers(scan, ids);
    EntriesAreMembers(scan', ids);
    assert forall k :: 0 <= k < |entries'| ==> entries'[k] in entries';
    forall k | 0 <= k < |entries'| ensures Kept(seen, entries', k) {
      SecondRunKeeps(scan, scan', ids, seen, queue, k);
    }
    forall id | id in IdsOf(entries) && id !in seen ensures id in IdsOf(entries') {
      var e :| e in entries && e.1 == id;
      assert e.0 in Holders(queue, ids, id);
      OneCopyEach(scan, ids, seen, queue, id);
      var m :| m in Holders(left, ids, id);
      assert (m, id) in entries';
    }
    forall id | id in IdsOf(entries') ensures id in IdsOf(entries) {
      var e :| e in entries' && e.1 == id;
      assert e in entries;
    }
  }

  lemma {:induction false} SecondRunKeeps(scan: seq<string>, scan': seq<string>, ids: Ids, seen: set<string>, queue: set<string>, k: nat)
    requires Covers(scan, queue) && NoRepeats(scan)
    requires Covers(scan', queue - DroppedMembers(seen, Entries(scan, ids))) && NoRepeats(scan')
    requires k < |Entries(scan', ids)|
    ensures Kept(seen, Entries(scan', ids), k)
  {
    var left, entries' := queue - DroppedMembers(seen, Entries(scan, ids)), Entries(scan', ids);
    EntriesAreMembers(scan', ids);
    EntriesRepeat(scan', ids);
    var id := entries'[k].1;
    OneCopyEach(scan, ids, seen, queue, id);
    assert entries'[k] in entries' && entries'[k].0 in Holders(left, ids, id);
    forall j | 0 <= j < k ensures entries'[j].1 != id {
      if entries'[j].1 == id {
        assert entries'[j] in entries' && entries'[j].0 in Holders(left, ids, id);
        OneElement(Holders(left, ids, id), entries'[j].0, entries'[k].0);
      }
    }
  }

  lemma {:induction false} OneElement(s: set<string>, x: string, y: string)
    requires |s| <= 1 && x in s && y in s
    ensures x == y
  {
    assert |s - {x}| == |s| - 1;
    assert s - {x} == {};
  }

  // ---- the script ----

  function KeyIds(keys: seq<string>, ids: Ids): set<string> {
    set key | key in keys && ids.key(key).Some? :: ids.key(key).value
  }

  function FetchedIds(nodes: seq<(string, bool)>, ids: Ids): set<string> {
    set node | node in nodes && node.1 :: ids.actor(node.0)
  }

  function Elements(list: seq<string>): set<string> {
    set x | x in list
  }

  /** The Redis keys the script writes. */
  class Store {
    var queue: set<string>
    var seen: set<string>

    constructor (queue: set<string>, seen: set<string>)
      ensures this.queue == queue && this.seen == seen
    {
      this.queue, this.seen := queue, seen;
    }

    method SAdd(id: string) returns (added: nat)
      modifies this`seen
      ensures seen == old(seen) + {id} && added == if id in old(seen) then 0 else 1
    {
      added := if id in seen then 0 else 1;
      seen := seen + {id};
    }

    method BatchSAdd(batch: seq<string>)
      modifies this`seen
      ensures seen == old(seen) + Elements(batch)
    {
      for i := 0 to |batch|
        invariant seen == old(seen) + Elements(batch[..i])
      {
        assert batch[..i + 1] == batch[..i] + [batch[i]];
        var _ := SAdd(batch[i]);
      }
      assert batch[..|batch|] == batch;
    }

    /** First all SADDs, then a ZREM for each that added nothing. */
    method BatchSAddAndZRem(batch: seq<Entry>) returns (kept: nat, dropped: nat)
      modifies this
      ensures Tally(seen, queue, kept, dropped) == SiftAll(Tally(old(seen), old(queue), 0, 0), batch)
    {
      ghost var start := Tally(seen, queue, 0, 0);
      var removals: seq<string> := [];
      for i := 0 to |batch|
        invariant queue == old(queue) && |removals| <= i
        invariant SiftAll(start, batch[..i]) == Tally(seen, queue - Elements(removals), i - |removals|, |removals|)
      {
        assert batch[..i + 1][..i] == batch[..i];
        var added := SAdd(batch[i].1);
        if added == 0 {
          ElementsOneMore(removals, batch[i].0);
          removals := removals + [batch[i].0];
        }
      }
      assert batch[..|batch|] == batch;
      for i := 0 to |removals|
        invariant seen == SiftAll(start, batch).seen
        invariant queue == old(queue) - Elements(removals[..i])
      {
        ElementsOneMore(removals[..i], removals[i]);
        assert removals[..i + 1] == removals[..i] + [removals[i]];
        queue := queue - {removals[i]};
      }
      assert removals[..|removals|] == removals;
      kept, dropped := |batch| - |removals|, |removals|;
    }

    method AddInFlight(keys: seq<string>, ids: Ids)
      modifies this`seen
      ensures seen == old(seen) + KeyIds(keys, ids)
    {
      for i := 0 to |keys|
        invariant seen == old(seen) + KeyIds(keys[..i], ids)
      {
        KeyIdsOneMore(keys, i, ids);
        var id := ids.key(keys[i]);
        if id.Some? {
          var _ := SAdd(id.value);
        }
      }
      assert keys[..|keys|] == keys;
    }

    /** The same for failed keys, in batches; a set scan may repeat keys. */
    method AddFailed(keys: seq<string>, ids: Ids, size: int)
      modifies this`seen
      ensures seen == old(seen) + KeyIds(keys, ids)
    {
      var batch: seq<string> := [];
      for i := 0 to |keys|
        invariant seen + Elements(batch) == old(seen) + KeyIds(keys[..i], ids)
      {
        KeyIdsOneMore(keys, i, ids);
        var id := ids.key(keys[i]);
        if id.Some? {
          ElementsOneMore(batch, id.value);
          batch := batch + [id.value];
        }
        if |batch| >= size {
          BatchSAdd(batch);
          batch := [];
        }
      }
      assert keys[..|keys|] == keys;
      BatchSAdd(batch);
    }

    /** Nodes with a `last_fetch_date`. */
    method AddGraph(nodes: seq<(string, bool)>, ids: Ids, size: int)
      modifies this`seen
      ensures seen == old(seen) + FetchedIds(nodes, ids)
    {
      var batch: seq<string> := [];
      for i := 0 to |nodes|
        invariant seen + Elements(batch) == old(seen) + FetchedIds(nodes[..i], ids)
      {
        FetchedIdsOneMore(nodes, i, ids);
        if nodes[i].1 {
          ElementsOneMore(batch, ids.actor(nodes[i].0));
          batch := batch + [ids.actor(nodes[i].0)];
        }
        if |batch| >= size {
          BatchSAdd(batch);
          batch := [];
        }
      }
      assert nodes[..|nodes|] == nodes;
      BatchSAdd(batch);
    }

    /** The result and the counts are those of one sift of the whole scan, whatever the
        batch size. */
    method AddQueueAndDedupe(scan: seq<string>, ids: Ids, size: int) returns (tried: nat, kept: nat, dropped: nat)
      modifies this
      ensures tried == |scan|
      ensures Tally(seen, queue, kept, dropped) == SiftAll(Tally(old(seen), old(queue), 0, 0), Entries(scan, ids))
    {
      ghost var start := Tally(seen, queue, 0, 0);
      ghost var flushed: seq<Entry> := [];
      var batch: seq<Entry> := [];
      tried, kept, dropped := 0, 0, 0;
      for i := 0 to |scan|
        invariant tried == i && flushed + batch == Entries(scan[..i], ids)
        invariant Tally(seen, queue, kept, dropped) == SiftAll(start, flushed)
      {
        EntriesOneMore(scan[..i], scan[i], ids);
        assert scan[..i + 1] == scan[..i] + [scan[i]];
        tried := tried + 1;
        var id := ids.member(scan[i]);
        if id.Some? {
          assert flushed + batch + [(scan[i], id.value)] == flushed + (batch + [(scan[i], id.value)]);
          batch := batch + [(scan[i], id.value)];
        }
        if |batch| >= size {
          var k, d := BatchSAddAndZRem(batch);
          BatchFollows(start, flushed, batch, kept, dropped, seen, queue, k, d);
          assert flushed + batch + [] == flushed + batch;
          flushed, batch, kept, dropped := flushed + batch, [], kept + k, dropped + d;
        }
      }
      assert scan[..|scan|] == scan;
      var k, d := BatchSAddAndZRem(batch);
      BatchFollows(start, flushed, batch, kept, dropped, seen, queue, k, d);
      kept, dropped := kept + k, dropped + d;
    }

    /** The script on a stopped crawler. `seen` ends as the ids of in-flight, failed,
        fetched and queued jobs. */
    method FixupSeen(inflight: seq<string>, failed: seq<string>, nodes: seq<(string, bool)>, scan: seq<string>, ids: Ids, size: int)
      returns (tried: nat, kept: nat, dropped: nat)
      modifies this
      ensures var elsewhere := KeyIds(inflight, ids) + KeyIds(failed, ids) + FetchedIds(nodes, ids);
              var entries := Entries(scan, ids);
              && seen == elsewhere + IdsOf(entries)
              && queue == old(queue) - DroppedMembers(elsewhere, entries)
              && tried == |scan| && kept == |IdsOf(entries) - elsewhere| && kept + dropped == |entries|
    {
      hide IdsOf, DroppedMembers, KeyIds, FetchedIds, Entries;
      seen := {};
      AddInFlight(inflight, ids);
      AddFailed(failed, ids, size);
      AddGraph(nodes, ids, size);
      SiftLeaves(Tally(seen, queue, 0, 0), Entries(scan, ids));
      tried, kept, dropped := AddQueueAndDedupe(scan, ids, size);
    }
  }

  lemma {:induction false} BatchFollows(start: Tally, flushed: seq<Entry>, batch: seq<Entry>, kept: nat, dropped: nat,
                     seen: set<string>, queue: set<string>, k: nat, d: nat)
    requires var t := SiftAll(start, flushed);
             t.kept == kept && t.dropped == dropped && Tally(seen, queue, k, d) == SiftAll(Tally(t.seen, t.queue, 0, 0), batch)
    ensures SiftAll(start, flushed + batch) == Tally(seen, queue, kept + k, dropped + d)
  {
    SiftBatches(start, flushed, batch);
    CountsAdd(SiftAll(start, flushed), batch);
  }

  lemma {:induction false} CountsAdd(t: Tally, entries: seq<Entry>)
    ensures var r := SiftAll(Tally(t.seen, t.queue, 0, 0), entries);
            SiftAll(t, entries) == Tally(r.seen, r.queue, t.kept + r.kept, t.dropped + r.dropped)
  {
    if entries != [] {
      CountsAdd(t, entries[..|entries| - 1]);
    }
  }

  lemma {:induction false} ElementsOneMore(list: seq<string>, x: string)
    ensures Elements(list + [x]) == Elements(list) + {x}
  {
  }

  lemma {:induction false} KeyIdsOneMore(keys: seq<string>, i: nat, ids: Ids)
    requires i < |keys|
    ensures KeyIds(keys[..i + 1], ids) == KeyIds(keys[..i], ids) + if ids.key(keys[i]).Some? then {ids.key(keys[i]).value} else {}
  {
    assert keys[..i + 1] == keys[..i] + [keys[i]];
    assert keys[i] in keys[..i + 1] && forall key :: key in keys[..i] ==> key in keys[..i + 1];
  }

  lemma {:induction false} FetchedIdsOneMore(nodes: seq<(string, bool)>, i: nat, ids: Ids)
    requires i < |nodes|
    ensures FetchedIds(nodes[..i + 1], ids) == FetchedIds(nodes[..i], ids) + if nodes[i].1 then {ids.actor(nodes[i].0)} else {}
  {
    assert nodes[..i + 1] == nodes[..i] + [nodes[i]];
    assert nodes[i] in nodes[..i + 1] && forall node :: node in nodes[..i] ==> node in nodes[..i + 1];
  }

  /** A member delivered twice, alone under its id, leaves the queue and is lost. */
  lemma {:induction false} RedeliveryLosesAJob(m: string, id: string, ids: Ids)
    requires ids.member(m) == Some(id)
    ensures Covers([m, m], {m}) && {m} - DroppedMembers({}, Entries([m, m], ids)) == {}
  {
    var entries := Entries([m, m], ids);
    EntriesOneMore([m], m, ids);
    var none: seq<string> := [];
    EntriesOneMore(none, m, ids);
    assert none + [m] == [m] && [m] + [m] == [m, m];
    assert Entries(none, ids) == [];
    assert entries == [(m, id), (m, id)];
    assert entries[0].1 == entries[1].1;
    assert !Kept({}, entries, 1) && entries[1].0 == m;
  }
}
