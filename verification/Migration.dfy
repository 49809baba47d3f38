/**
 Rewriting the queue member by member (fixup/fixup_queue.py,
 fixup/prioritise_queue_by_depth_and_job_type.py, fixup/fixup_crc_tiebreak.py).

 The three scripts share one loop: scan the queue, collect the members still in
 the old format, and write each batch with a ZREM and a ZADD per member. They
 differ in what is old, in the new text, in the score, and in which of the two
 commands comes first. The crawler is stopped.
 */
module Migrating {
  import opened Options

  /** `isOld` and `rewrite` raise on a member they cannot read; `rewrite` gives no text
      for a member the script leaves alone. A pipeline that is a transaction takes effect
      as a whole or not at all. */
  datatype Script = Script(isOld: string -> Result<bool>, rewrite: string -> Result<Option<string>>,
                           carriesScore: bool, addsFirst: bool, transaction: bool)

  /** A script that may be cut off between two commands must add before it removes. */
  predicate Safe(script: Script) {
    script.transaction || script.addsFirst
  }

  /** What becomes of a member. */
  function Image(script: Script, m: string): string {
    match script.isOld(m)
    case Ok(true) =>
      (match script.rewrite(m)
       case Ok(Some(n)) => n
       case _ => m)
    case _ => m
  }

  function Images(script: Script, members: set<string>): set<string> {
    set m | m in members :: Image(script, m)
  }

  /** New texts are not old, so nothing is rewritten twice. */
  ghost predicate Settles(script: Script) {
    forall m :: script.isOld(m) == Ok(true) && script.rewrite(m).Ok? && script.rewrite(m).value.Some? ==>
      script.isOld(script.rewrite(m).value.value) == Ok(false)
  }

  function NewScore(script: Script, score: real): real {
    if script.carriesScore then score else 0.0
  }

  // ---- what the images keep ----

  ghost predicate Separate(script: Script, members: set<string>) {
    forall m, n :: m in members && n in members && Image(script, m) == Image(script, n) ==> m == n
  }

  lemma {:induction false} ImagesCount(script: Script, members: set<string>)
    ensures |Images(script, members)| <= |members|
    ensures |Images(script, members)| == |members| <==> Separate(script, members)
  {
    if members != {} {
      var m :| m in members;
      var rest := members - {m};
      ImagesCount(script, rest);
      assert members == rest + {m};
      assert Images(script, members) == Images(script, rest) + {Image(script, m)};
      if Separate(script, members) {
        assert Image(script, m) !in Images(script, rest);
      } else if Separate(script, rest) {
        var a, b :| a in members && b in members && Image(script, a) == Image(script, b) && a != b;
        assert Image(script, if a == m then b else a) == Image(script, m);
        assert (if a == m then b else a) in rest;
      }
    }
  }

  lemma {:induction false} ImageSettled(script: Script, m: string)
    requires Settles(script)
    ensures Image(script, Image(script, m)) == Image(script, m)
  {
  }

  /** Running a finished script again leaves nothing to do. */
  lemma {:induction false} ImagesSettled(script: Script, members: set<string>)
    requires Settles(script)
    ensures Images(script, Images(script, members)) == Images(script, members)
  {
    forall m ensures Image(script, Image(script, m)) == Image(script, m) {
      ImageSettled(script, m);
    }
    var once := Images(script, members);
    forall x | x in once ensures x in Images(script, once) {
      assert Image(script, x) == x;
    }
  }

  // ---- scans ----

  /** A scan hands out original members with their scores, some of them again and
      again, and may show members the script has written already. */
  ghost predicate Delivers(script: Script, scan: seq<(string, real)>, queue: map<string, real>) {
    forall i :: 0 <= i < |scan| ==>
      (scan[i].0 in queue && queue[scan[i].0] == scan[i].1) || script.isOld(scan[i].0) == Ok(false)
  }

  /** It hands out every member that was there throughout. */
  ghost predicate Covers(scan: seq<(string, real)>, queue: map<string, real>) {
    forall m :: m in queue ==> (m, queue[m]) in scan
  }

  // ---- the script ----

  class SortedSet {
    var members: map<string, real>

    constructor (members: map<string, real>)
      ensures this.members == members
    {
      this.members := members;
    }

    method ZAdd(member: string, score: real)
      modifies this
      ensures members == old(members)[member := score]
    {
      members := members[member := score];
    }

    method ZRem(member: string)
      modifies this
      ensures members == old(members) - {member}
    {
      members := members - {member};
    }
  }

  /** A member waiting in the batch. */
  datatype Entry = Entry(was: string, becomes: Option<string>, score: real)

  /** The entry of an original member. */
  ghost predicate Reads(script: Script, e: Entry, queue: map<string, real>) {
    && e.was in queue && e.score == queue[e.was]
    && script.isOld(e.was) == Ok(true) && script.rewrite(e.was) == Ok(e.becomes)
  }

  /** Each member and score comes from an original member. */
  ghost predicate Sourced(script: Script, members: map<string, real>, queue: map<string, real>) {
    forall x :: x in members ==> Source(script, x, members[x], queue)
  }

  ghost predicate Source(script: Script, x: string, score: real, queue: map<string, real>) {
    (x in queue && queue[x] == score) ||
    exists m :: m in queue && m != x && Image(script, m) == x && NewScore(script, queue[m]) == score
  }

  /** What holds between commands: nothing is lost, and nothing comes from nowhere. */
  ghost predicate Faithful(script: Script, members: map<string, real>, queue: map<string, real>) {
    Images(script, members.Keys) == Images(script, queue.Keys) && Sourced(script, members, queue)
  }

  function After(members: map<string, real>, script: Script, e: Entry): map<string, real> {
    if e.becomes == None then members
    else members[e.becomes.value := NewScore(script, e.score)] - {e.was}
  }

  lemma {:induction false} WriteKeepsFaithful(script: Script, members: map<string, real>, queue: map<string, real>, e: Entry)
    requires Settles(script) && Faithful(script, members, queue) && Reads(script, e, queue)
    ensures Faithful(script, After(members, script, e), queue)
    ensures e.becomes.Some? ==> e.becomes.value != e.was
  {
    if e.becomes.Some? {
      var n, next := e.becomes.value, After(members, script, e);
      assert n != e.was && Image(script, e.was) == n && Image(script, n) == n;
      assert n in Images(script, queue.Keys);
      forall x ensures x in Images(script, next.Keys) <==> x in Images(script, members.Keys) {
        if x == n {
          assert n in next.Keys;
        } else if m :| m in members.Keys && Image(script, m) == x {
          assert m in next.Keys;
        }
      }
      forall x | x in next ensures Source(script, x, next[x], queue) {
        if x != n {
          assert x in members && next[x] == members[x];
        }
      }
    }
  }

  /** Adding before removing is safe between the two commands ... */
  lemma {:induction false} HalfWritten(script: Script, members: map<string, real>, queue: map<string, real>, e: Entry)
    requires Settles(script) && Faithful(script, members, queue) && Reads(script, e, queue) && e.becomes.Some?
    ensures Faithful(script, members[e.becomes.value := NewScore(script, e.score)], queue)
  {
    WriteKeepsFaithful(script, members, queue, e);
    var n := e.becomes.value;
    var half := members[n := NewScore(script, e.score)];
    assert Image(script, e.was) == n && Image(script, n) == n;
    assert n in Images(script, queue.Keys);
    forall x ensures x in Images(script, half.Keys) <==> x in Images(script, members.Keys) {
      if x == n {
        assert n in half.Keys;
      } else if m :| m in members.Keys && Image(script, m) == x {
        assert m in half.Keys;
      }
    }
    forall x | x in half ensures Source(script, x, half[x], queue) {
      if x != n {
        assert x in members && half[x] == members[x];
      }
    }
  }

  /** ... and removing first is not, so those scripts need their transaction. */
  lemma {:induction false} HalfRemoved(script: Script, members: map<string, real>, e: Entry)
    requires Separate(script, members.Keys) && Reads(script, e, members)
    ensures !Faithful(script, members - {e.was}, members)
  {
    var half := members - {e.was};
    assert e.was in members.Keys;
    forall m | m in half.Keys ensures Image(script, m) != Image(script, e.was) {
      assert m in members.Keys;
    }
    assert Image(script, e.was) in Images(script, members.Keys);
  }

  // ---- batches ----

  function AfterAll(members: map<string, real>, script: Script, batch: seq<Entry>): map<string, real> {
    if batch == [] then members
    else After(AfterAll(members, script, batch[..|batch| - 1]), script, batch[|batch| - 1])
  }

  ghost predicate AllRead(script: Script, batch: seq<Entry>, queue: map<string, real>) {
    forall e :: e in batch ==> Reads(script, e, queue)
  }

  /** `m` needs no rewriting, is gone, or waits in the batch. */
  ghost predicate Handled(script: Script, m: string, members: map<string, real>, batch: seq<Entry>) {
    Image(script, m) == m || m !in members || exists e :: e in batch && e.was == m
  }

  lemma {:induction false} BatchKeepsFaithful(script: Script, members: map<string, real>, queue: map<string, real>, batch: seq<Entry>)
    requires Settles(script) && Faithful(script, members, queue) && AllRead(script, batch, queue)
    ensures Faithful(script, AfterAll(members, script, batch), queue)
    ensures forall m :: Handled(script, m, members, batch) ==> Handled(script, m, AfterAll(members, script, batch), [])
  {
    if batch != [] {
      var n := |batch| - 1;
      var most, e := batch[..n], batch[n];
      assert e in batch && forall x :: x in most ==> x in batch;
      BatchKeepsFaithful(script, members, queue, most);
      var middle := AfterAll(members, script, most);
      WriteKeepsFaithful(script, middle, queue, e);
      forall m | Handled(script, m, members, batch) ensures Handled(script, m, After(middle, script, e), []) {
        EntryHandles(script, middle, queue, e, m);
        if m != e.was {
          assert Handled(script, m, members, most) by {
            if x :| x in batch && x.was == m {
              assert x in most;
            }
          }
        }
      }
    }
  }

  lemma {:induction false} EntryHandles(script: Script, members: map<string, real>, queue: map<string, real>, e: Entry, m: string)
    requires Settles(script) && Reads(script, e, queue)
    ensures m == e.was || Handled(script, m, members, []) ==> Handled(script, m, After(members, script, e), [])
  {
    if e.becomes.Some? {
      assert Image(script, e.becomes.value) == e.becomes.value;
    }
  }

  /** The score a finished script leaves on what became of `m`. */
  ghost predicate ScoreKept(script: Script, members: map<string, real>, queue: map<string, real>, m: string)
    requires m in queue
  {
    Image(script, m) in members &&
    members[Image(script, m)] == if Image(script, m) == m || script.carriesScore then queue[m] else 0.0
  }

  /** Where no two members become one, each has its score: its own if it was left alone or
      the script carries scores, and zero otherwise. */
  lemma {:induction false} ScoresFollow(script: Script, members: map<string, real>, queue: map<string, real>)
    requires Settles(script) && Faithful(script, members, queue) && members.Keys == Images(script, queue.Keys)
    requires Separate(script, queue.Keys)
    ensures forall m :: m in queue ==> ScoreKept(script, members, queue, m)
  {
    forall m | m in queue ensures ScoreKept(script, members, queue, m) {
      ImageSettled(script, m);
      OneSource(script, members, queue, m);
    }
  }

  lemma {:induction false} OneSource(script: Script, members: map<string, real>, queue: map<string, real>, m: string)
    requires Sourced(script, members, queue) && members.Keys == Images(script, queue.Keys) && Separate(script, queue.Keys)
    requires m in queue && Image(script, Image(script, m)) == Image(script, m)
    ensures ScoreKept(script, members, queue, m)
  {
    hide Image;
    var x := Image(script, m);
    assert m in queue.Keys && x in members;
    assert Source(script, x, members[x], queue);
    assert forall n :: n in queue && Image(script, n) == x ==> n in queue.Keys && n == m;
  }

  lemma {:induction false} NothingLeft(script: Script, members: map<string, real>, queue: map<string, real>)
    requires Settles(script) && Faithful(script, members, queue)
    requires forall m :: m in queue ==> Handled(script, m, members, [])
    ensures members.Keys == Images(script, queue.Keys)
  {
    forall x | x in members.Keys ensures Image(script, x) == x {
      assert Source(script, x, members[x], queue);
      if x !in queue {
        var m :| m in queue && Image(script, m) == x;
        ImageSettled(script, m);
      }
    }
    assert forall x :: x in members.Keys ==> x in Images(script, members.Keys);
  }

  /** A pipeline cut off after `cut` of its commands, two for each entry that has a new
      text. Only a script that is no transaction leaves anything behind. */
  method CutOff(r: SortedSet, script: Script, batch: seq<Entry>, cut: nat, ghost queue: map<string, real>)
    requires Settles(script) && Safe(script) && AllRead(script, batch, queue) && Faithful(script, r.members, queue)
    modifies r
    ensures Faithful(script, r.members, queue)
    ensures (forall e :: e in batch ==> e.becomes == None) ==> r.members == old(r.members)
  {
    hide Faithful, Settles;
    if script.transaction {
      return;
    }
    var left := cut;
    for i := 0 to |batch|
      invariant Faithful(script, r.members, queue)
      invariant (forall e :: e in batch ==> e.becomes == None) ==> r.members == old(r.members)
    {
      var e := batch[i];
      assert e in batch;
      if e.becomes.Some? {
        WriteKeepsFaithful(script, r.members, queue, e);
        HalfWritten(script, r.members, queue, e);
        if left > 0 {
          r.ZAdd(e.becomes.value, NewScore(script, e.score));
        }
        if left > 1 {
          r.ZRem(e.was);
        }
        if left <= 1 {
          return;
        }
        left := left - 2;
      }
    }
  }

  /** One pipeline: `addsFirst` scripts send ZADD then ZREM, the others ZREM then ZADD. */
  method Flush(r: SortedSet, script: Script, batch: seq<Entry>, ghost queue: map<string, real>)
    requires Settles(script) && AllRead(script, batch, queue)
    modifies r
    ensures r.members == AfterAll(old(r.members), script, batch)
  {
    ghost var start := r.members;
    for i := 0 to |batch|
      invariant r.members == AfterAll(start, script, batch[..i])
    {
      var e := batch[i];
      assert batch[..i + 1][..i] == batch[..i] && e in batch;
      if e.becomes.Some? {
        if script.addsFirst {
          r.ZAdd(e.becomes.value, NewScore(script, e.score));
          r.ZRem(e.was);
        } else {
          r.ZRem(e.was);
          r.ZAdd(e.becomes.value, NewScore(script, e.score));
        }
      }
    }
    assert batch[..|batch|] == batch;
  }

  /** Where the loop stands after `i` scanned members. */
  ghost predicate Progress(script: Script, scan: seq<(string, real)>, i: nat, members: map<string, real>, batch: seq<Entry>, queue: map<string, real>)
    requires i <= |scan|
  {
    && Faithful(script, members, queue) && AllRead(script, batch, queue)
    && (forall k :: 0 <= k < i && scan[k].0 in queue ==> Handled(script, scan[k].0, members, batch))
    && ((forall m :: m in queue ==> script.isOld(m) != Ok(true)) ==> members == queue && batch == [])
  }

  lemma {:induction false} Started(script: Script, scan: seq<(string, real)>, queue: map<string, real>)
    ensures Progress(script, scan, 0, queue, [], queue)
  {
  }

  lemma {:induction false} Skipped(script: Script, scan: seq<(string, real)>, i: nat, members: map<string, real>, batch: seq<Entry>, queue: map<string, real>)
    requires i < |scan| && Progress(script, scan, i, members, batch, queue) && script.isOld(scan[i].0) == Ok(false)
    ensures Progress(script, scan, i + 1, members, batch, queue)
  {
    hide Faithful;
  }

  lemma {:induction false} Collected(script: Script, scan: seq<(string, real)>, i: nat, members: map<string, real>, batch: seq<Entry>, queue: map<string, real>, e: Entry)
    requires i < |scan| && Progress(script, scan, i, members, batch, queue) && Delivers(script, scan, queue)
    requires script.isOld(scan[i].0) == Ok(true) && script.rewrite(scan[i].0) == Ok(e.becomes)
    requires e.was == scan[i].0 && e.score == scan[i].1
    ensures Progress(script, scan, i + 1, members, batch + [e], queue)
  {
    hide Faithful, Image;
    assert e in batch + [e] && forall x :: x in batch ==> x in batch + [e];
    forall k | 0 <= k < i + 1 && scan[k].0 in queue ensures Handled(script, scan[k].0, members, batch + [e]) {
      if k < i && Handled(script, scan[k].0, members, batch) {
        if x :| x in batch && x.was == scan[k].0 {
          assert x in batch + [e];
        }
      }
    }
  }

  lemma {:induction false} Flushed(script: Script, scan: seq<(string, real)>, i: nat, members: map<string, real>, batch: seq<Entry>, queue: map<string, real>)
    requires i <= |scan| && Settles(script) && Progress(script, scan, i, members, batch, queue)
    ensures Progress(script, scan, i, AfterAll(members, script, batch), [], queue)
  {
    hide Handled;
    BatchKeepsFaithful(script, members, queue, batch);
  }

  lemma {:induction false} Ended(script: Script, scan: seq<(string, real)>, members: map<string, real>, queue: map<string, real>)
    requires Settles(script) && Progress(script, scan, |scan|, members, [], queue) && Covers(scan, queue)
    ensures members.Keys == Images(script, queue.Keys)
  {
    hide Faithful, Handled;
    forall m | m in queue ensures Handled(script, m, members, []) {
      var k :| 0 <= k < |scan| && scan[k] == (m, queue[m]);
      assert scan[k].0 == m;
    }
    NothingLeft(script, members, queue);
  }

  predicate Readable(script: Script, m: string) {
    script.isOld(m).Ok? && (script.isOld(m).value ==> script.rewrite(m).Ok?)
  }

  /** The whole script; `flushes` is how many pipelines go out whole before it is killed,
      and `cut` how many commands of the next one. It stops early when killed or when a
      member cannot be read. Whatever happens nothing is lost, so it may be run again; a
      run that ends leaves exactly the images, with their scores. */
  method Migrate(r: SortedSet, script: Script, scan: seq<(string, real)>, size: int, flushes: nat, cut: nat)
    returns (tried: nat, migrated: nat, ended: bool)
    requires Settles(script) && Safe(script) && Delivers(script, scan, r.members)
    modifies r
    ensures Faithful(script, r.members, old(r.members))
    ensures ended && Covers(scan, old(r.members)) ==> r.members.Keys == Images(script, old(r.members.Keys))
    ensures ended && Covers(scan, old(r.members)) && Separate(script, old(r.members).Keys) ==>
              forall m :: m in old(r.members) ==> ScoreKept(script, r.members, old(r.members), m)
    ensures flushes > |scan| && (forall i :: 0 <= i < |scan| ==> Readable(script, scan[i].0)) ==> ended
    ensures (forall m :: m in old(r.members) ==> script.isOld(m) != Ok(true)) ==> r.members == old(r.members)
    ensures ended ==> tried == |scan| && migrated == OldIn(script, scan)
  {
    hide Faithful, Handled, Delivers, Settles, Sourced, Covers, AfterAll, ScoreKept, Separate, Image;
    tried, migrated, ended := 0, 0, false;
    ghost var queue := r.members;
    var batch: seq<Entry> := [];
    var left := flushes;
    Started(script, scan, queue);
    for i := 0 to |scan|
      invariant Progress(script, scan, i, r.members, batch, queue)
      invariant flushes - left <= i
      invariant tried == i && migrated + |batch| == OldIn(script, scan[..i])
    {
      tried := tried + 1;
      var (member, score) := scan[i];
      assert scan[..i + 1][..i] == scan[..i];
      var isOld := script.isOld(member);
      if isOld.Raised? {
        return;
      }
      if isOld.value {
        var text := script.rewrite(member);
        if text.Raised? {
          return;
        }
        Collected(script, scan, i, r.members, batch, queue, Entry(member, text.value, score));
        batch := batch + [Entry(member, text.value, score)];
      } else {
        Skipped(script, scan, i, r.members, batch, queue);
      }
      if |batch| >= size {
        if left == 0 {
          CutOff(r, script, batch, cut, queue);
          return;
        }
        Flushed(script, scan, i + 1, r.members, batch, queue);
        Flush(r, script, batch, queue);
        migrated, batch, left := migrated + |batch|, [], left - 1;
      }
    }
    assert scan[..|scan|] == scan;
    if left == 0 {
      CutOff(r, script, batch, cut, queue);
      return;
    }
    Flushed(script, scan, |scan|, r.members, batch, queue);
    Flush(r, script, batch, queue);
    migrated, ended := migrated + |batch|, true;
    if Covers(scan, queue) {
      Ended(script, scan, r.members, queue);
      if Separate(script, queue.Keys) {
        ScoresFollow(script, r.members, queue);
      }
    }
  }

  /** How many deliveries of old members a scan makes. */
  function OldIn(script: Script, scan: seq<(string, real)>): nat {
    if scan == [] then 0
    else OldIn(script, scan[..|scan| - 1]) + if script.isOld(scan[|scan| - 1].0) == Ok(true) then 1 else 0
  }
}
