/**
 When `join` may be believed (pub_crawler/dispatcher.py). It reads the size of the
 queue and then the number of leases, in two commands, and returns when both were
 zero.
 */
module Joining {
  import opened Options
  import opened JsonValues
  import opened Jobs
  import opened Codec
  import opened Web
  import opened Protocol
  import opened Conservation
  import opened ExactlyOnce
  import opened Closure

  /** Every seen job has completed or failed. */
  ghost predicate AllFinished(env: Env, s: State) {
    forall h :: h in s.store.seen ==> Finished(env, s, h)
  }

  /** Read in one state, the two zeros mean that everything seen is finished exactly
      when no coroutine is carrying a job between two commands. */
  lemma {:induction false} OneReadIsExact(env: Env, run: seq<State>, steps: seq<Step>, seeds: set<Job>, i: nat)
    requires IsRun(env, run, steps) && Initial(run[0], seeds) && NoReaping(steps) && i < |run|
    ensures AllFinished(env, run[i]) <==> run[i].store.queue == {} && run[i].store.inflight == map[] && Hands(run[i]) == {}
  {
    var s := run[i];
    RunOnce(env, run, steps, seeds, i);
    assert forall t :: Present(s, t) && t.InHand? ==> t.c in Hands(s);
    if s.store.queue == {} && s.store.inflight == map[] && Hands(s) == {} {
      forall h | h in s.store.seen ensures Finished(env, s, h) {
        var t :| Present(s, t) && Hash(env, JobOf(t)) == h;
      }
    }
    if AllFinished(env, s) {
      forall t | Present(s, t) ensures t.DidComplete? || t.DidFail? {
        var j :| (j in s.completed || j in s.store.failed) && Hash(env, j) == Hash(env, JobOf(t));
        assert Present(s, if j in s.completed then DidComplete(j) else DidFail(j));
      }
      NoTokensLeft(s);
    }
  }

  lemma {:induction false} NoTokensLeft(s: State)
    requires forall t :: Present(s, t) ==> t.DidComplete? || t.DidFail?
    ensures s.store.queue == {} && s.store.inflight == map[] && Hands(s) == {}
  {
    forall m | m in s.store.queue ensures false {
      assert Present(s, InQueue(m));
    }
    forall j | j in s.store.inflight ensures false {
      assert Present(s, OnLease(j));
    }
    assert s.store.inflight.Keys == {};
    forall c | c in Hands(s) ensures false {
      assert Present(s, InHand(c, CarriedJob(s, c)));
    }
  }

  /** A pop empties the queue before it fills the lease: right after popping the last
      job, one read of both sizes gives zero with that job unfinished. */
  lemma {:induction false} PopHidesAJob(env: Env, run: seq<State>, steps: seq<Step>, seeds: set<Job>, i: nat)
    requires IsRun(env, run, steps) && Initial(run[0], seeds) && NoReaping(steps) && i < |steps|
    requires steps[i].Pop? && |run[i].store.queue| == 1 && run[i].store.inflight == map[]
    ensures run[i + 1].store.queue == {} && run[i + 1].store.inflight == map[]
    ensures !AllFinished(env, run[i + 1])
  {
    var s := run[i + 1];
    var m, c := steps[i].m, steps[i].c;
    var others := run[i].store.queue - {m};
    assert |others| == 0;
    assert s.store.queue == others;
    assert c in Hands(s);
    OneReadIsExact(env, run, steps, seeds, i + 1);
  }

  // ---- two reads, each between calls ----

  const WORKER: nat := 0
  const SEEDER: nat := 1

  /** An actor whose document leads to one collection. */
  ghost predicate Leads(env: Env, a: string, fields: seq<(string, Json)>, u: string) {
    && Fits(a) && env.fetch(a) == Document(fields)
    && GetStr(fields, "followers") == Some(u) && GetStr(fields, "following") == None
    && Hash(env, Actor(a, 0)) != Hash(env, Collection(u, a, Followers, 0))
  }

  function Alone(store: Store, graph: Graph, worker: Pc, completed: set<Job>, popped: seq<Job>): State {
    State(store, graph, map[WORKER := worker, SEEDER := Stopped], completed, popped)
  }

  /** The run: seed, lease, visit, queue the collection, release. */
  function EarlyRun(env: Env, a: string, u: string): seq<State> {
    var j, k := Actor(a, 0), Collection(u, a, Followers, 0);
    var m, n := MemberOf(j, env.crc, ""), MemberOf(k, env.crc, "");
    var h, l := {Hash(env, j)}, {Hash(env, j)} + {Hash(env, k)};
    var lease := map[j := MAX_INFLIGHT];
    var g1 := Affect(EMPTY_GRAPH, Ensure([a]));
    var save := SaveActor(a, 0, true);
    [ State(EMPTY_STORE, EMPTY_GRAPH, map[WORKER := Idle, SEEDER := Working(None, [Enqueue(j)])], {}, []),
      State(Store({}, map[], {}, h), EMPTY_GRAPH, map[WORKER := Idle, SEEDER := Admitting(None, j, [])], {}, []),
      State(Store({m}, map[], {}, h), EMPTY_GRAPH, map[WORKER := Idle, SEEDER := Working(None, [])], {}, []),
      Alone(Store({m}, map[], {}, h), EMPTY_GRAPH, Idle, {}, []),
      Alone(Store({}, map[], {}, h), EMPTY_GRAPH, Popped(j), {}, [j]),
      Alone(Store({}, lease, {}, h), EMPTY_GRAPH, Working(Some(j), [Ensure([a]), StopIfFetched(a), Enqueue(k), save]), {}, [j]),
      Alone(Store({}, lease, {}, h), g1, Working(Some(j), [StopIfFetched(a), Enqueue(k), save]), {}, [j]),
      Alone(Store({}, lease, {}, h), g1, Working(Some(j), [Enqueue(k), save]), {}, [j]),
      Alone(Store({}, lease, {}, l), g1, Admitting(Some(j), k, [save]), {}, [j]),
      Alone(Store({n}, lease, {}, l), g1, Working(Some(j), [save]), {}, [j]),
      Alone(Store({n}, lease, {}, l), Affect(g1, save), Working(Some(j), []), {}, [j]),
      Alone(Store({n}, map[], {}, l), Affect(g1, save), Idle, {j}, [j]) ]
  }

  function EarlySteps(env: Env, a: string): seq<Step> {
    [ Admit(SEEDER), Push(SEEDER, ""), SeedsDone(SEEDER), Pop(WORKER, MemberOf(Actor(a, 0), env.crc, "")), Lease(WORKER, 0),
      Act(WORKER, []), Act(WORKER, []), Admit(WORKER), Push(WORKER, ""), Act(WORKER, []), Complete(WORKER) ]
  }

  lemma {:induction false} EarlyAdmit(env: Env, a: string, u: string)
    ensures Next(env, EarlyRun(env, a, u)[0], EarlyRun(env, a, u)[1], EarlySteps(env, a)[0])
  {
    hide Plan, IsFirst, Answers, Affect, Remaining, MemberOf;
    var run := EarlyRun(env, a, u);
    var j := Actor(a, 0);
    assert [Enqueue(j)][1..] == [];
    assert run[0].pcs[SEEDER := Admitting(None, j, [])] == run[1].pcs;
  }

  lemma {:induction false} EarlyPush(env: Env, a: string, u: string)
    ensures Next(env, EarlyRun(env, a, u)[1], EarlyRun(env, a, u)[2], EarlySteps(env, a)[1])
  {
    hide Plan, IsFirst, Answers, Affect, Remaining, Hash;
    var run := EarlyRun(env, a, u);
    assert run[1].pcs[SEEDER := Working(None, [])] == run[2].pcs;
  }

  lemma {:induction false} EarlySeeded(env: Env, a: string, u: string)
    ensures Next(env, EarlyRun(env, a, u)[2], EarlyRun(env, a, u)[3], EarlySteps(env, a)[2])
  {
    hide Plan, IsFirst, Answers, Affect, Remaining, Hash, MemberOf;
    var run := EarlyRun(env, a, u);
    assert run[2].pcs[SEEDER := Stopped] == run[3].pcs;
  }

  lemma {:induction false} EarlyPop(env: Env, a: string, u: string)
    ensures Next(env, EarlyRun(env, a, u)[3], EarlyRun(env, a, u)[4], EarlySteps(env, a)[3])
  {
    hide Plan, Before, Answers, Affect, Remaining, Hash;
    var run := EarlyRun(env, a, u);
    var m := MemberOf(Actor(a, 0), env.crc, "");
    assert run[3].pcs[WORKER := Popped(m.job)] == run[4].pcs;
    assert {m} - {m} == {};
  }

  lemma {:induction false} EarlyPlan(env: Env, a: string, fields: seq<(string, Json)>, u: string)
    requires Leads(env, a, fields, u)
    ensures Plan(env, Actor(a, 0)) ==
            [Ensure([a]), StopIfFetched(a), Enqueue(Collection(u, a, Followers, 0)), SaveActor(a, 0, true)]
  {
  }

  lemma {:induction false} EarlyLease(env: Env, a: string, fields: seq<(string, Json)>, u: string)
    requires Leads(env, a, fields, u)
    ensures var run, steps := EarlyRun(env, a, u), EarlySteps(env, a);
            Next(env, run[4], run[5], steps[4])
  {
    hide IsFirst, Answers, Affect, Remaining, MemberOf, Plan, Hash;
    var run := EarlyRun(env, a, u);
    var j, k := Actor(a, 0), Collection(u, a, Followers, 0);
    EarlyPlan(env, a, fields, u);
    assert run[4].pcs[WORKER := Working(Some(j), Plan(env, j))] == run[5].pcs;
  }

  lemma {:induction false} EarlyVisit(env: Env, a: string, u: string)
    ensures Next(env, EarlyRun(env, a, u)[5], EarlyRun(env, a, u)[6], EarlySteps(env, a)[5])
  {
    hide Plan, IsFirst, MemberOf, Hash;
    var run := EarlyRun(env, a, u);
    var j, k := Actor(a, 0), Collection(u, a, Followers, 0);
    var save := SaveActor(a, 0, true);
    assert [Ensure([a]), StopIfFetched(a), Enqueue(k), save][1..] == [StopIfFetched(a), Enqueue(k), save];
    assert run[5].pcs[WORKER := Working(Some(j), [StopIfFetched(a), Enqueue(k), save])] == run[6].pcs;
  }

  lemma {:induction false} EarlyGuard(env: Env, a: string, u: string)
    ensures Next(env, EarlyRun(env, a, u)[6], EarlyRun(env, a, u)[7], EarlySteps(env, a)[6])
  {
    hide Plan, IsFirst, MemberOf, Hash;
    var run := EarlyRun(env, a, u);
    var j, k := Actor(a, 0), Collection(u, a, Followers, 0);
    var save := SaveActor(a, 0, true);
    assert [StopIfFetched(a), Enqueue(k), save][1..] == [Enqueue(k), save];
    assert run[6].pcs[WORKER := Working(Some(j), [Enqueue(k), save])] == run[7].pcs;
  }

  lemma {:induction false} EarlyDiscovery(env: Env, a: string, fields: seq<(string, Json)>, u: string)
    requires Leads(env, a, fields, u)
    ensures Next(env, EarlyRun(env, a, u)[7], EarlyRun(env, a, u)[8], EarlySteps(env, a)[7])
  {
    hide Plan, IsFirst, Answers, Affect, Remaining, MemberOf;
    var run := EarlyRun(env, a, u);
    var j, k := Actor(a, 0), Collection(u, a, Followers, 0);
    var save := SaveActor(a, 0, true);
    assert [Enqueue(k), save][1..] == [save];
    assert run[7].pcs[WORKER := Admitting(Some(j), k, [save])] == run[8].pcs;
  }

  lemma {:induction false} EarlyQueued(env: Env, a: string, u: string)
    ensures Next(env, EarlyRun(env, a, u)[8], EarlyRun(env, a, u)[9], EarlySteps(env, a)[8])
  {
    hide Plan, IsFirst, Answers, Affect, Remaining, Hash;
    var run := EarlyRun(env, a, u);
    assert run[8].pcs[WORKER := Working(Some(Actor(a, 0)), [SaveActor(a, 0, true)])] == run[9].pcs;
  }

  lemma {:induction false} EarlySave(env: Env, a: string, u: string)
    ensures Next(env, EarlyRun(env, a, u)[9], EarlyRun(env, a, u)[10], EarlySteps(env, a)[9])
  {
    hide IsFirst, Plan, MemberOf;
    var run := EarlyRun(env, a, u);
    assert [SaveActor(a, 0, true)][1..] == [];
    assert run[9].pcs[WORKER := Working(Some(Actor(a, 0)), [])] == run[10].pcs;
  }

  lemma {:induction false} EarlyRelease(env: Env, a: string, u: string)
    ensures Next(env, EarlyRun(env, a, u)[10], EarlyRun(env, a, u)[11], EarlySteps(env, a)[10])
  {
    hide IsFirst, Plan, MemberOf;
    var run := EarlyRun(env, a, u);
    assert run[10].pcs[WORKER := Idle] == run[11].pcs;
    assert map[Actor(a, 0) := MAX_INFLIGHT] - {Actor(a, 0)} == map[];
  }

  lemma {:induction false} EarlyRunIsRun(env: Env, a: string, fields: seq<(string, Json)>, u: string)
    requires Leads(env, a, fields, u)
    ensures IsRun(env, EarlyRun(env, a, u), EarlySteps(env, a))
  {
    hide Next, Plan;
    EarlyAdmit(env, a, u);
    EarlyPush(env, a, u);
    EarlySeeded(env, a, u);
    EarlyPop(env, a, u);
    EarlyLease(env, a, fields, u);
    EarlyVisit(env, a, u);
    EarlyGuard(env, a, u);
    EarlyDiscovery(env, a, fields, u);
    EarlyQueued(env, a, u);
    EarlySave(env, a, u);
    EarlyRelease(env, a, u);
  }

  /** Two reads are not enough even between whole calls. On any web where an actor
      leads to a collection there is a run where `join` finds the queue empty, the
      actor's visit then queues the collection and ends, and `join` finds no lease:
      it returns, and the workers are cancelled, with the collection still queued. */
  lemma {:induction false} JoinReturnsEarly(env: Env, a: string, fields: seq<(string, Json)>, u: string)
    requires Leads(env, a, fields, u)
    ensures var run, steps := EarlyRun(env, a, u), EarlySteps(env, a);
            && IsRun(env, run, steps) && Initial(run[0], {Actor(a, 0)}) && NoReaping(steps)
            && run[7].store.queue == {} && CallsDone(run[7])
            && run[11].store.inflight == map[] && CallsDone(run[11])
            && Queued(run[11].store, Collection(u, a, Followers, 0)) && !AllFinished(env, run[11])
  {
    hide Next, AllFinished, Plan, Affect, Leads;
    var run, steps := EarlyRun(env, a, u), EarlySteps(env, a);
    EarlyRunIsRun(env, a, fields, u);
    assert EnqueueAll([Actor(a, 0)]) == [Enqueue(Actor(a, 0))];
    var k := Collection(u, a, Followers, 0);
    assert MemberOf(k, env.crc, "") in run[11].store.queue && MemberOf(k, env.crc, "").job == k;
    OneReadIsExact(env, run, steps, {Actor(a, 0)}, 11);
  }
}
