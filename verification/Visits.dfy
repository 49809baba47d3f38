/**
 What a worker does to one job from pop to release, as a single move between states.
 Runs put together from such visits show what the promises of the crawl cannot do
 without.
 */
module Visits {
  import opened Options
  import opened JsonValues
  import opened Jobs
  import opened Codec
  import opened Web
  import opened Protocol
  import opened QueueOrder
  import opened ExactlyOnce
  import opened BreadthFirst

  /** The clock stands still. */
  function Noon(): (ts: string)
    ensures TimestampText(ts)
  {
    "2024-06-15T12:00:00.000000Z"
  }

  /** Some run without reaping and crashes leads from `start` to `s`; `solo`, one by a
      single worker. */
  ghost predicate Comes(env: Env, start: State, s: State, solo: bool) {
    exists run, steps :: Brings(env, start, s, solo, run, steps)
  }

  ghost predicate Brings(env: Env, start: State, s: State, solo: bool, run: seq<State>, steps: seq<Step>) {
    && IsRun(env, run, steps) && run[0] == start && run[|steps|] == s && NoReaping(steps)
    && (forall i :: 0 <= i < |steps| ==> !steps[i].Crash?) && Stamped(steps) && (solo ==> Undisturbed(run, steps))
  }

  lemma {:induction false} ComesItself(env: Env, start: State, solo: bool)
    ensures Comes(env, start, start, solo)
  {
    assert Brings(env, start, start, solo, [start], []);
  }

  lemma {:induction false} ComesNext(env: Env, start: State, s: State, s': State, step: Step, solo: bool)
    requires Comes(env, start, s, solo) && Next(env, s, s', step) && !step.Crash? && !step.Scan?
    requires step.Push? || step.PushAgain? ==> TimestampText(step.ts)
    requires solo && step.Pop? ==> SeedingOver(s)
    ensures Comes(env, start, s', solo)
  {
    hide Next, SeedingOver, TimestampText;
    var run, steps :| Brings(env, start, s, solo, run, steps);
    var run', steps' := run + [s'], steps + [step];
    forall i | 0 <= i < |steps'| ensures Next(env, run'[i], run'[i + 1], steps'[i]) {
      if i < |steps| {
        assert steps[i] == steps'[i];
      }
    }
    assert Brings(env, start, s', solo, run', steps');
  }

  lemma {:induction false} RunOf(env: Env, start: State, s: State, solo: bool) returns (run: seq<State>, steps: seq<Step>)
    requires Comes(env, start, s, solo)
    ensures Brings(env, start, s, solo, run, steps)
  {
    run, steps :| Brings(env, start, s, solo, run, steps);
  }

  // ---- the calls of a visit ----

  lemma {:induction false} Pops(env: Env, start: State, s: State, c: nat, m: Member, solo: bool) returns (s': State)
    requires Comes(env, start, s, solo) && c in s.pcs && s.pcs[c] == Idle && IsFirst(m, s.store.queue, env.json)
    requires solo ==> SeedingOver(s)
    ensures Comes(env, start, s', solo)
    ensures s' == s.(store := ZRem(s.store, m), pcs := s.pcs[c := Popped(m.job)], popped := s.popped + [m.job])
  {
    hide Comes, Plan, Before, Noon;
    s' := s.(store := ZRem(s.store, m), pcs := s.pcs[c := Popped(m.job)], popped := s.popped + [m.job]);
    ComesNext(env, start, s, s', Pop(c, m), solo);
  }

  lemma {:induction false} LeasesIt(env: Env, start: State, s: State, c: nat, j: Job, solo: bool) returns (s': State)
    requires Comes(env, start, s, solo) && c in s.pcs && s.pcs[c] == Popped(j)
    ensures Comes(env, start, s', solo)
    ensures s' == s.(store := HSet(s.store, j, MAX_INFLIGHT), pcs := s.pcs[c := Working(Some(j), Plan(env, j))])
  {
    hide Comes, Plan, Before, Noon;
    s' := s.(store := HSet(s.store, j, MAX_INFLIGHT), pcs := s.pcs[c := Working(Some(j), Plan(env, j))]);
    assert 0 + MAX_INFLIGHT == MAX_INFLIGHT;
    ComesNext(env, start, s, s', Lease(c, 0), solo);
  }

  lemma {:induction false} Acts(env: Env, start: State, s: State, c: nat, order: seq<string>, solo: bool) returns (s': State)
    requires Comes(env, start, s, solo) && c in s.pcs && s.pcs[c].Working? && s.pcs[c].todo != []
    requires !s.pcs[c].todo[0].Enqueue? && !s.pcs[c].todo[0].Raise? && Answers(s.graph, s.pcs[c].todo[0], order)
    ensures Comes(env, start, s', solo)
    ensures s' == s.(graph := Affect(s.graph, s.pcs[c].todo[0]),
                     pcs := s.pcs[c := Working(s.pcs[c].owner, Remaining(s.graph, s.pcs[c].todo, order))])
  {
    hide Comes, Plan, Before, Noon, Answers, Affect, Remaining;
    s' := s.(graph := Affect(s.graph, s.pcs[c].todo[0]),
             pcs := s.pcs[c := Working(s.pcs[c].owner, Remaining(s.graph, s.pcs[c].todo, order))]);
    ComesNext(env, start, s, s', Act(c, order), solo);
  }

  /** The state after a job with a new hash has been marked seen and queued. */
  function Offered(env: Env, s: State, c: nat, job: Job, owner: Option<Job>, rest: seq<Action>): State {
    s.(store := ZAdd(SAddSeen(s.store, Hash(env, job)), MemberOf(job, env.crc, Noon())), pcs := s.pcs[c := Working(owner, rest)])
  }

  lemma {:induction false} OffersNew(env: Env, start: State, s: State, c: nat, job: Job, owner: Option<Job>, rest: seq<Action>, solo: bool)
    returns (s': State)
    requires Comes(env, start, s, solo) && c in s.pcs && s.pcs[c] == Working(owner, [Enqueue(job)] + rest)
    requires Hash(env, job) !in s.store.seen
    ensures Comes(env, start, s', solo) && s' == Offered(env, s, c, job, owner, rest)
  {
    hide Comes, Plan, Before, Noon, MemberOf, Hash;
    assert ([Enqueue(job)] + rest)[1..] == rest;
    var mid := s.(store := SAddSeen(s.store, Hash(env, job)), pcs := s.pcs[c := Admitting(owner, job, rest)]);
    ComesNext(env, start, s, mid, Admit(c), solo);
    s' := mid.(store := ZAdd(mid.store, MemberOf(job, env.crc, Noon())), pcs := mid.pcs[c := Working(owner, rest)]);
    ComesNext(env, start, mid, s', Push(c, Noon()), solo);
    assert s'.pcs == s.pcs[c := Working(owner, rest)];
  }

  lemma {:induction false} Completes(env: Env, start: State, s: State, c: nat, j: Job, solo: bool) returns (s': State)
    requires Comes(env, start, s, solo) && c in s.pcs && s.pcs[c] == Working(Some(j), [])
    ensures Comes(env, start, s', solo)
    ensures s' == s.(store := HDel(s.store, j), pcs := s.pcs[c := Idle], completed := s.completed + {j})
  {
    hide Comes, Plan, Before, Noon;
    s' := s.(store := HDel(s.store, j), pcs := s.pcs[c := Idle], completed := s.completed + {j});
    ComesNext(env, start, s, s', Complete(c), solo);
  }

  // ---- whole visits ----

  /** The worker has popped and leased `m.job`. */
  function LeasedTo(env: Env, s: State, c: nat, m: Member): State {
    s.(store := HSet(ZRem(s.store, m), m.job, MAX_INFLIGHT), pcs := s.pcs[c := Working(Some(m.job), Plan(env, m.job))],
       popped := s.popped + [m.job])
  }

  lemma {:induction false} Takes(env: Env, start: State, s: State, c: nat, m: Member, solo: bool) returns (s': State)
    requires Comes(env, start, s, solo) && c in s.pcs && s.pcs[c] == Idle && IsFirst(m, s.store.queue, env.json)
    requires solo ==> SeedingOver(s)
    ensures Comes(env, start, s', solo) && s' == LeasedTo(env, s, c, m)
  {
    hide Comes, Plan, Before, Noon, IsFirst, SeedingOver;
    var mid := Pops(env, start, s, c, m, solo);
    s' := LeasesIt(env, start, mid, c, m.job, solo);
    assert s'.pcs == s.pcs[c := Working(Some(m.job), Plan(env, m.job))];
  }

  function MembersOf(env: Env, jobs: seq<Job>): set<Member> {
    set j | j in jobs :: MemberOf(j, env.crc, Noon())
  }

  function Hashes(env: Env, jobs: seq<Job>): set<nat> {
    set j | j in jobs :: Hash(env, j)
  }

  /** Hashes that are new, each to the ones before it too. */
  predicate AllNew(env: Env, seen: set<nat>, jobs: seq<Job>)
    decreases jobs
  {
    jobs == [] || (Hash(env, jobs[0]) !in seen && AllNew(env, seen + {Hash(env, jobs[0])}, jobs[1..]))
  }

  /** The store with new jobs put in. */
  function Filled(env: Env, r: Store, jobs: seq<Job>): Store {
    r.(queue := r.queue + MembersOf(env, jobs), seen := r.seen + Hashes(env, jobs))
  }

  lemma {:induction false} EnqueueAllSplits(jobs: seq<Job>, rest: seq<Action>)
    requires jobs != []
    ensures EnqueueAll(jobs) + rest == [Enqueue(jobs[0])] + (EnqueueAll(jobs[1..]) + rest)
  {
  }

  lemma {:induction false} OffersAll(env: Env, start: State, s: State, c: nat, jobs: seq<Job>, owner: Option<Job>, rest: seq<Action>, solo: bool)
    returns (s': State)
    requires Comes(env, start, s, solo) && c in s.pcs && s.pcs[c] == Working(owner, EnqueueAll(jobs) + rest)
    requires AllNew(env, s.store.seen, jobs)
    ensures Comes(env, start, s', solo)
    ensures s' == s.(store := Filled(env, s.store, jobs), pcs := s.pcs[c := Working(owner, rest)])
    decreases jobs
  {
    hide Comes, Plan, Before, Noon, MemberOf, Hash;
    if jobs == [] {
      s' := s;
      assert EnqueueAll(jobs) + rest == rest;
      assert s.pcs[c := Working(owner, rest)] == s.pcs;
      assert Filled(env, s.store, jobs) == s.store;
    } else {
      EnqueueAllSplits(jobs, rest);
      var mid := OffersNew(env, start, s, c, jobs[0], owner, EnqueueAll(jobs[1..]) + rest, solo);
      s' := OffersAll(env, start, mid, c, jobs[1..], owner, rest, solo);
      FilledSplits(env, s.store, jobs);
      assert s'.pcs == s.pcs[c := Working(owner, rest)];
    }
  }

  lemma {:induction false} FilledSplits(env: Env, r: Store, jobs: seq<Job>)
    requires jobs != []
    ensures Filled(env, r, jobs) ==
            Filled(env, ZAdd(SAddSeen(r, Hash(env, jobs[0])), MemberOf(jobs[0], env.crc, Noon())), jobs[1..])
  {
    hide MemberOf, Hash;
    assert forall j :: j in jobs <==> j == jobs[0] || j in jobs[1..];
  }

  function ActorSaved(g: Graph, j: Job, fetched: bool): Graph
    requires j.Actor?
  {
    g.(nodes := g.nodes + {j.actorId}, depth := g.depth[j.actorId := j.depth],
       fetched := if fetched then g.fetched + {j.actorId} else g.fetched)
  }

  /** The leased actor has been visited. */
  function ActorLeft(env: Env, s: State, c: nat, j: Job, jobs: seq<Job>, fetched: bool): State
    requires j.Actor?
  {
    s.(store := HDel(Filled(env, s.store, jobs), j), graph := ActorSaved(s.graph, j, fetched),
       pcs := s.pcs[c := Idle], completed := s.completed + {j})
  }

  lemma {:induction false} NothingPut(env: Env, r: Store)
    ensures Filled(env, r, []) == r && AllNew(env, r.seen, [])
  {
  }

  /** An actor not fetched before, from pop to release: its node, its collections, its depth. */
  function ActorVisited(env: Env, s: State, m: Member, jobs: seq<Job>, fetched: bool): State
    requires m.job.Actor?
  {
    s.(store := Filled(env, ZRem(s.store, m), jobs), graph := ActorSaved(s.graph, m.job, fetched),
       completed := s.completed + {m.job}, popped := s.popped + [m.job])
  }

  lemma {:induction false} VisitsActor(env: Env, start: State, s: State, c: nat, m: Member, jobs: seq<Job>, fetched: bool, solo: bool)
    returns (s': State)
    requires Comes(env, start, s, solo) && c in s.pcs && s.pcs[c] == Idle && IsFirst(m, s.store.queue, env.json)
    requires solo ==> SeedingOver(s)
    requires m.job.Actor? && m.job.actorId !in s.graph.fetched && m.job !in s.store.inflight
    requires Plan(env, m.job) ==
             [Ensure([m.job.actorId])] + ([StopIfFetched(m.job.actorId)] + (EnqueueAll(jobs) + [SaveActor(m.job.actorId, m.job.depth, fetched)]))
    requires AllNew(env, s.store.seen, jobs)
    ensures Comes(env, start, s', solo) && s' == ActorVisited(env, s, m, jobs, fetched)
  {
    hide Comes, Plan, Before, Noon, IsFirst, SeedingOver, AllNew, Hashes, MembersOf, EnqueueAll;
    var s1 := Takes(env, start, s, c, m, solo);
    s' := ResumesActor(env, start, s1, c, m.job, jobs, fetched, solo);
    assert s'.pcs == s.pcs;
    assert s'.store.inflight == s.store.inflight;
  }

  /** The same from the lease on. */
  lemma {:induction false} ResumesActor(env: Env, start: State, s: State, c: nat, j: Job, jobs: seq<Job>, fetched: bool, solo: bool)
    returns (s': State)
    requires Comes(env, start, s, solo) && j.Actor? && j.actorId !in s.graph.fetched
    requires c in s.pcs && s.pcs[c] ==
             Working(Some(j), [Ensure([j.actorId])] + ([StopIfFetched(j.actorId)] + (EnqueueAll(jobs) + [SaveActor(j.actorId, j.depth, fetched)])))
    requires AllNew(env, s.store.seen, jobs)
    ensures Comes(env, start, s', solo)
    ensures s' == ActorLeft(env, s, c, j, jobs, fetched)
  {
    hide Comes, Plan, Before, Noon, AllNew, Hashes, MembersOf, EnqueueAll;
    var a, save := j.actorId, SaveActor(j.actorId, j.depth, fetched);
    var s1 := Acts(env, start, s, c, [], solo);
    assert s1.pcs[c] == Working(Some(j), [StopIfFetched(a)] + (EnqueueAll(jobs) + [save]));
    var s2 := Acts(env, start, s1, c, [], solo);
    assert s2.pcs[c] == Working(Some(j), EnqueueAll(jobs) + [save]);
    var s3 := OffersAll(env, start, s2, c, jobs, Some(j), [save], solo);
    var s4 := Acts(env, start, s3, c, [], solo);
    assert s4.pcs[c] == Working(Some(j), []);
    s' := Completes(env, start, s4, c, j, solo);
    assert s'.pcs == s.pcs[c := Idle];
    assert Elements([a]) == {a};
  }

  /** What a read leaves of one label. */
  function Left(x: string, there: bool): seq<string> {
    if there then [] else [x]
  }

  /** A collection with one member: its owner's node, the member's node and edge, and
      for a member met for the first time its depth and its job. */
  function MemberMet(env: Env, s: State, m: Member, x: string): State
    requires m.job.Collection?
  {
    var o, g, d := m.job.owner, s.graph, m.job.depth + 1;
    var known := x in g.depth;
    s.(store := Filled(env, ZRem(s.store, m), if known then [] else [Actor(x, d)]),
       graph := g.(nodes := g.nodes + {o} + {x}, follows := g.follows + Follows([x], o, m.job.direction),
                   depth := if known then g.depth else g.depth[x := d]),
       completed := s.completed + {m.job}, popped := s.popped + [m.job])
  }

  lemma {:induction false} VisitsCollection(env: Env, start: State, s: State, c: nat, m: Member, x: string, solo: bool)
    returns (s': State)
    requires Comes(env, start, s, solo) && c in s.pcs && s.pcs[c] == Idle && IsFirst(m, s.store.queue, env.json)
    requires solo ==> SeedingOver(s)
    requires m.job.Collection? && m.job !in s.store.inflight
    requires Plan(env, m.job) == [Ensure([m.job.owner])] + Walk([x], m.job.owner, m.job.direction, m.job.depth)
    requires x in s.graph.depth <==> x in s.graph.fetched
    requires x !in s.graph.depth ==> Hash(env, Actor(x, m.job.depth + 1)) !in s.store.seen
    ensures Comes(env, start, s', solo) && s' == MemberMet(env, s, m, x)
  {
    hide Comes, Plan, Before, Noon, IsFirst, SeedingOver, Hashes, MembersOf, Follows, Hash, Walk, Remaining, Affect;
    var j, d := m.job, m.job.depth + 1;
    var s1 := Takes(env, start, s, c, m, solo);
    var s2 := Meets(env, start, s1, c, j, x, solo);
    var s3 := Stamps(env, start, s2, c, x, d, Some(j), [QueueUnfetched([x], d)], solo);
    var s4 := Queues(env, start, s3, c, x, d, x in s.graph.depth, Some(j), solo);
    s' := Completes(env, start, s4, c, j, solo);
    assert s'.pcs == s.pcs;
    assert s'.store.inflight == s.store.inflight;
  }

  /** The nodes and the edge. */
  lemma {:induction false} Meets(env: Env, start: State, s: State, c: nat, j: Job, x: string, solo: bool) returns (s': State)
    requires Comes(env, start, s, solo) && j.Collection?
    requires c in s.pcs && s.pcs[c] == Working(Some(j), [Ensure([j.owner])] + Walk([x], j.owner, j.direction, j.depth))
    ensures Comes(env, start, s', solo)
    ensures s' == s.(graph := s.graph.(nodes := s.graph.nodes + {j.owner} + {x}, follows := s.graph.follows + Follows([x], j.owner, j.direction)),
                     pcs := s.pcs[c := Working(Some(j), [StampDepth([x], j.depth + 1)] + [QueueUnfetched([x], j.depth + 1)])])
  {
    hide Comes, Plan, Before, Noon, Follows, Hash;
    var link, stamp, queue := Link([x], j.owner, j.direction), StampDepth([x], j.depth + 1), QueueUnfetched([x], j.depth + 1);
    assert Elements([x]) == {x} && Elements([j.owner]) == {j.owner};
    var s1 := Acts(env, start, s, c, [], solo);
    assert s1.pcs[c] == Working(Some(j), [Ensure([x]), link, stamp, queue]);
    var s2 := Acts(env, start, s1, c, [], solo);
    assert s2.pcs[c] == Working(Some(j), [link, stamp, queue]);
    s' := Acts(env, start, s2, c, [], solo);
    assert s'.pcs[c] == Working(Some(j), [stamp] + [queue]);
    assert s'.pcs == s.pcs[c := Working(Some(j), [stamp] + [queue])];
  }

  /** The read and the write of one missing depth. */
  lemma {:induction false} Stamps(env: Env, start: State, s: State, c: nat, x: string, d: int, owner: Option<Job>, rest: seq<Action>, solo: bool)
    returns (s': State)
    requires Comes(env, start, s, solo) && c in s.pcs && s.pcs[c] == Working(owner, [StampDepth([x], d)] + rest)
    ensures Comes(env, start, s', solo)
    ensures s' == s.(graph := s.graph.(depth := if x in s.graph.depth then s.graph.depth else s.graph.depth[x := d]),
                     pcs := s.pcs[c := Working(owner, rest)])
  {
    hide Comes, Plan, Before, Noon;
    var left := Left(x, x in s.graph.depth);
    assert Elements([x]) == {x} && Elements([]) == {};
    assert Elements(left) == Elements([x]) - s.graph.depth.Keys;
    assert ([StampDepth([x], d)] + rest)[1..] == rest;
    var s1 := Acts(env, start, s, c, left, solo);
    assert s1.pcs[c] == Working(owner, [WriteDepth(left, d)] + rest);
    assert ([WriteDepth(left, d)] + rest)[1..] == rest;
    assert s1.graph == s.graph;
    s' := Acts(env, start, s1, c, [], solo);
    assert s'.graph.depth == if x in s.graph.depth then s.graph.depth else s.graph.depth[x := d];
    assert s'.pcs == s.pcs[c := Working(owner, rest)];
  }

  /** The read of one fetch date, and the job if there is none. */
  lemma {:induction false} Queues(env: Env, start: State, s: State, c: nat, x: string, d: int, known: bool, owner: Option<Job>, solo: bool)
    returns (s': State)
    requires Comes(env, start, s, solo) && c in s.pcs && s.pcs[c] == Working(owner, [QueueUnfetched([x], d)])
    requires known <==> x in s.graph.fetched
    requires !known ==> Hash(env, Actor(x, d)) !in s.store.seen
    ensures Comes(env, start, s', solo)
    ensures s' == s.(store := Filled(env, s.store, if known then [] else [Actor(x, d)]), pcs := s.pcs[c := Working(owner, [])])
  {
    hide Comes, Plan, Before, Noon, Hash, Hashes, MembersOf;
    var left, jobs := Left(x, known), if known then [] else [Actor(x, d)];
    assert Elements([x]) == {x} && Elements([]) == {};
    assert Elements(left) == Elements([x]) - s.graph.fetched;
    var s1 := Acts(env, start, s, c, left, solo);
    assert [QueueUnfetched([x], d)][1..] == [];
    assert EnqueueActors(left, d) == EnqueueAll(jobs);
    assert s1.pcs[c] == Working(owner, EnqueueAll(jobs) + []);
    s' := OffersAll(env, start, s1, c, jobs, owner, [], solo);
    assert s'.pcs == s.pcs[c := Working(owner, [])];
  }

  /** A collection that leads nowhere. */
  lemma {:induction false} VisitsNothing(env: Env, start: State, s: State, c: nat, m: Member, o: string, solo: bool) returns (s': State)
    requires Comes(env, start, s, solo) && c in s.pcs && s.pcs[c] == Idle && IsFirst(m, s.store.queue, env.json)
    requires solo ==> SeedingOver(s)
    requires m.job !in s.store.inflight && Plan(env, m.job) == [Ensure([o])]
    ensures Comes(env, start, s', solo)
    ensures s' == s.(store := ZRem(s.store, m), graph := s.graph.(nodes := s.graph.nodes + {o}),
                     completed := s.completed + {m.job}, popped := s.popped + [m.job])
  {
    hide Comes, Plan, Before, Noon, IsFirst, SeedingOver;
    assert Elements([o]) == {o};
    var s1 := Takes(env, start, s, c, m, solo);
    var s2 := Acts(env, start, s1, c, [], solo);
    assert s2.pcs[c] == Working(Some(m.job), []);
    s' := Completes(env, start, s2, c, m.job, solo);
    assert s'.pcs == s.pcs;
    assert s'.store.inflight == s.store.inflight;
  }

  /** The seeding script, from first to last. */
  lemma {:induction false} Seeds(env: Env, start: State, s: State, c: nat, jobs: seq<Job>, solo: bool) returns (s': State)
    requires Comes(env, start, s, solo) && c in s.pcs && s.pcs[c] == Working(None, EnqueueAll(jobs))
    requires AllNew(env, s.store.seen, jobs)
    ensures Comes(env, start, s', solo)
    ensures s' == s.(store := Filled(env, s.store, jobs), pcs := s.pcs[c := Stopped])
  {
    hide Comes, Plan, Before, Noon, Hashes, MembersOf, AllNew, EnqueueAll;
    assert EnqueueAll(jobs) + [] == EnqueueAll(jobs);
    var s1 := OffersAll(env, start, s, c, jobs, None, [], solo);
    s' := s1.(pcs := s1.pcs[c := Stopped]);
    ComesNext(env, start, s1, s', SeedsDone(c), solo);
    assert s'.pcs == s.pcs[c := Stopped];
  }

  // ---- documents of small webs ----

  function Followed(u: string): Fetch {
    Document([("followers", Str(u))])
  }

  function Listing(member: string): Fetch {
    Document([("items", Arr([Str(member)]))])
  }

  lemma {:induction false} FollowedLeads(env: Env, a: string, d: int, u: string)
    requires env.fetch(a) == Followed(u) && Fits(a)
    ensures Plan(env, Actor(a, d)) ==
            [Ensure([a])] + ([StopIfFetched(a)] + (EnqueueAll([Collection(u, a, Followers, d)]) + [SaveActor(a, d, true)]))
  {
    var fields := [("followers", Str(u))];
    assert fields[1..] == [] && Get(fields, "followers").Some? && Get(fields, "following") == None;
    assert EnqueueAll([Collection(u, a, Followers, d)]) == [Enqueue(Collection(u, a, Followers, d))];
    assert CollectionJobs(fields, a, d) == [Enqueue(Collection(u, a, Followers, d))];
  }

  lemma {:induction false} ListingLeads(env: Env, u: string, o: string, dir: Direction, d: int, member: string)
    requires env.fetch(u) == Listing(member) && d < env.maxDepth && Fits(o) && Fits(member) && member != ""
    ensures Plan(env, Collection(u, o, dir, d)) == [Ensure([o])] + Walk([member], o, dir, d)
  {
    var fields := [("items", Arr([Str(member)]))];
    assert fields[0].0[0] == 'i' && "first"[0] == 'f' && "totalItems"[0] == 't';
    assert fields[1..] == [];
    assert Get(fields, "totalItems") == Get([], "totalItems") && Get(fields, "first") == Get([], "first");
    assert ItemsOf(fields) == Arr([Str(member)]);
    assert [Str(member)][1..] == [];
    assert ItemIds([Str(member)]) == [member];
    assert AllFit([member]);
    assert MemberIds(ItemsOf(fields)) == Ok([member]);
  }

  lemma {:induction false} FollowedDiscovers(env: Env, a: string, d: int, u: string)
    requires env.fetch(a) == Followed(u) && Fits(a)
    ensures Collection(u, a, Followers, d) in Successors(env, Actor(a, d))
  {
    var fields := [("followers", Str(u))];
    assert Get(fields, "followers") == Some(Str(u));
    assert Collection(u, a, Followers, d) in OwnCollection(fields, a, Followers, d);
  }

  lemma {:induction false} ListingDiscovers(env: Env, u: string, o: string, dir: Direction, d: int, member: string)
    requires env.fetch(u) == Listing(member) && d < env.maxDepth && Fits(o) && Fits(member) && member != ""
    ensures Actor(member, d + 1) in Successors(env, Collection(u, o, dir, d))
  {
    hide Plan;
    ListingLeads(env, u, o, dir, d, member);
    PlanDiscoversSuccessors(env, Collection(u, o, dir, d));
    var todo := [Ensure([o])] + Walk([member], o, dir, d);
    assert todo[4] == QueueUnfetched([member], d + 1);
    assert Actor(member, d + 1) in Targets(todo);
  }
}
