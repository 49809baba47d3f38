/**
 Depths are hop counts: any number of workers, reaping included. Every job the
 crawl ever holds ends a real discovery chain from a seed, and its depth is the
 number of follow hops on that chain.
 */
module DepthSoundness {
  import opened Options
  import opened Jobs
  import opened Web
  import opened Protocol
  import opened Conservation
  import opened Todo
  import opened Closure

  /** Each job after the first is discovered by the one before it. */
  ghost predicate IsChain(env: Env, seeds: set<Job>, chain: seq<Job>) {
    chain != [] && chain[0] in seeds &&
    forall i :: 0 <= i < |chain| - 1 ==> chain[i + 1] in Successors(env, chain[i])
  }

  ghost predicate Discovered(env: Env, seeds: set<Job>, job: Job) {
    exists chain :: IsChain(env, seeds, chain) && chain[|chain| - 1] == job
  }

  /** A follow hop goes from a collection or page to one of its members. */
  function Hops(chain: seq<Job>): nat {
    if |chain| <= 1 then 0
    else
      var n := |chain|;
      Hops(chain[..n - 1]) + (if chain[n - 1].Actor? && !chain[n - 2].Webfinger? then 1 else 0)
  }

  /** Seeds are webfinger addresses and actors at depth 0. */
  ghost predicate SeedJobs(seeds: set<Job>) {
    forall j :: j in seeds ==> j.Webfinger? || (j.Actor? && j.depth == 0)
  }

  lemma {:induction false} SeedIsDiscovered(env: Env, seeds: set<Job>, j: Job)
    requires j in seeds
    ensures Discovered(env, seeds, j)
  {
    assert IsChain(env, seeds, [j]);
  }

  lemma {:induction false} DiscoveredStep(env: Env, seeds: set<Job>, j: Job, k: Job)
    requires Discovered(env, seeds, j) && k in Successors(env, j)
    ensures Discovered(env, seeds, k)
  {
    var chain :| IsChain(env, seeds, chain) && chain[|chain| - 1] == j;
    var longer := chain + [k];
    assert IsChain(env, seeds, longer) && longer[|longer| - 1] == k;
  }

  /** Deeper means within the gate: only collections check it, and pages inherit it. */
  predicate WithinGate(env: Env, job: Job) {
    match job
    case Page(_, _, _, d) => 0 <= d < env.maxDepth
    case _ => 0 <= Depth(job) <= env.maxDepth
  }

  lemma {:induction false} SuccessorWithinGate(env: Env, j: Job, k: Job)
    requires k in Successors(env, j) && WithinGate(env, j)
    ensures WithinGate(env, k)
    ensures Depth(k) == Depth(j) + (if k.Actor? && !j.Webfinger? then 1 else 0)
  {
  }

  /** On a chain the depth is the number of hops, and the gate holds although
      pages have none of their own. */
  lemma {:induction false} ChainDepth(env: Env, seeds: set<Job>, chain: seq<Job>)
    requires IsChain(env, seeds, chain) && SeedJobs(seeds) && 0 <= env.maxDepth
    ensures Depth(chain[|chain| - 1]) == Hops(chain)
    ensures WithinGate(env, chain[|chain| - 1])
  {
    var n := |chain|;
    if n > 1 {
      var rest := chain[..n - 1];
      assert forall i :: 0 <= i < n - 1 ==> rest[i] == chain[i];
      assert IsChain(env, seeds, rest);
      ChainDepth(env, seeds, rest);
      SuccessorWithinGate(env, chain[n - 2], chain[n - 1]);
    }
  }

  /** The jobs a coroutine knows of or has a handler about to offer. */
  function Known(pc: Pc): set<Job> {
    Mentions(pc) + Targets(TodoOf(pc))
  }

  ghost predicate Anywhere(s: State, j: Job) {
    Kept(s, j) || j in s.popped || exists c :: c in s.pcs && j in Known(s.pcs[c])
  }

  ghost predicate Sound(env: Env, seeds: set<Job>, s: State) {
    forall j :: Anywhere(s, j) ==> Discovered(env, seeds, j)
  }

  lemma {:induction false} KnownFromPlan(env: Env, s: State, s': State, step: Step, j: Job)
    requires Next(env, s, s', step) && (step.Lease? || step.Act? || step.Admit?)
    requires step.c in s'.pcs && j in Known(s'.pcs[step.c])
    ensures step.c in s.pcs && (j in Known(s.pcs[step.c]) || LeaseFinds(env, s, step, j))
  {
    hide Plan, Successors, Affect, Remaining, Answers;
    var pc := s.pcs[step.c];
    match step
    case Lease(_, _) => PlanDiscoversSuccessors(env, pc.job);
    case Act(_, order) => RemainingTargets(s.graph, pc.todo, order);
    case Admit(_) => TargetsTail(pc.todo);
  }

  lemma {:induction false} KnownFromStore(env: Env, s: State, s': State, step: Step, j: Job)
    requires Next(env, s, s', step) && !(step.Lease? || step.Act? || step.Admit?)
    requires step.c in s'.pcs && j in Known(s'.pcs[step.c])
    ensures Kept(s, j) || (step.c in s.pcs && j in Known(s.pcs[step.c]))
  {
    hide Plan, Successors, InTransit, Affect, Remaining, Answers, TargetsOf, Targets;
    assert step.Pop? ==> Queued(s.store, step.m.job);
    assert Targets([]) == {};
  }

  /** A coroutine learns of a job from the store, or by leasing a job that discovers it. */
  lemma {:induction false} NewlyKnown(env: Env, s: State, s': State, step: Step, j: Job)
    requires Next(env, s, s', step) && step.c in s'.pcs && j in Known(s'.pcs[step.c])
    ensures Kept(s, j) || (step.c in s.pcs && (j in Known(s.pcs[step.c]) || LeaseFinds(env, s, step, j)))
  {
    hide Next, Known, Kept, LeaseFinds;
    if step.Lease? || step.Act? || step.Admit? {
      KnownFromPlan(env, s, s', step, j);
    } else {
      KnownFromStore(env, s, s', step, j);
    }
  }

  /** The step leases a job that discovers `j`. */
  ghost predicate LeaseFinds(env: Env, s: State, step: Step, j: Job)
    requires step.c in s.pcs
  {
    step.Lease? && s.pcs[step.c].Popped? && j in Successors(env, s.pcs[step.c].job)
  }

  lemma {:induction false} NewlyPopped(env: Env, s: State, s': State, step: Step, j: Job)
    requires Next(env, s, s', step) && j in s'.popped
    ensures j in s.popped || Queued(s.store, j)
  {
    hide Plan, Successors, InTransit, Affect, Remaining, Answers;
    assert step.Pop? ==> Queued(s.store, step.m.job);
  }

  lemma {:induction false} NewlyAnywhere(env: Env, s: State, s': State, step: Step, j: Job)
    requires Next(env, s, s', step) && Anywhere(s', j)
    ensures Anywhere(s, j) || (step.c in s.pcs && LeaseFinds(env, s, step, j))
  {
    hide LeaseFinds;
    assert step.c in s.pcs && forall c :: c in s'.pcs && c != step.c ==> c in s.pcs && s'.pcs[c] == s.pcs[c];
    hide Next, Successors, Known;
    if Kept(s', j) {
      KeptFrom(env, s, s', step, j);
    } else if j in s'.popped {
      NewlyPopped(env, s, s', step, j);
    } else {
      var c :| c in s'.pcs && j in Known(s'.pcs[c]);
      if c == step.c {
        NewlyKnown(env, s, s', step, j);
      }
    }
  }

  lemma {:induction false} QueuedFrom(env: Env, s: State, s': State, step: Step, j: Job)
    requires Next(env, s, s', step) && Queued(s'.store, j)
    ensures Queued(s.store, j) || (step.c in s.pcs && j in Known(s.pcs[step.c]))
  {
    hide Plan, Answers, Affect, Remaining, Targets;
    var m :| m in s'.store.queue && m.job == j;
    assert m in s.store.queue ==> Queued(s.store, j);
  }

  lemma {:induction false} TransitFrom(env: Env, s: State, s': State, step: Step, j: Job)
    requires Next(env, s, s', step) && InTransit(s'.pcs, j)
    ensures InTransit(s.pcs, j) || Queued(s.store, j) || (step.c in s.pcs && j in Known(s.pcs[step.c]))
  {
    hide Next, Known;
    var d :| d in s'.pcs && j in Carried(s'.pcs[d]);
    OnlyMoves(env, s, s', step);
    CarriedFrom(env, s, s', step, j);
    if d != step.c {
      assert d in s.pcs && s.pcs[d] == s'.pcs[d];
    }
  }

  /** Where what the coroutine that moved carries now was before. */
  lemma {:induction false} CarriedFrom(env: Env, s: State, s': State, step: Step, j: Job)
    requires Next(env, s, s', step) && step.c in s.pcs && step.c in s'.pcs
    ensures j in Carried(s'.pcs[step.c]) ==> InTransit(s.pcs, j) || Queued(s.store, j) || j in Known(s.pcs[step.c])
  {
    hide Plan, Answers, Affect, Remaining, Hash;
    if step.Pop? {
      assert Queued(s.store, step.m.job);
    } else if step.Admit? {
      TargetsTail(s.pcs[step.c].todo);
    }
  }

  lemma {:induction false} KeptFrom(env: Env, s: State, s': State, step: Step, j: Job)
    requires Next(env, s, s', step) && Kept(s', j)
    ensures Kept(s, j) || (step.c in s.pcs && j in Known(s.pcs[step.c]))
  {
    if Queued(s'.store, j) {
      QueuedFrom(env, s, s', step, j);
    } else if InTransit(s'.pcs, j) {
      TransitFrom(env, s, s', step, j);
    } else {
      hide Plan, Answers, Affect, Remaining, Targets, InTransit, Queued;
      assert j in s.store.inflight || j in s.store.failed || j in s.completed || j in Mentions(s.pcs[step.c]);
    }
  }

  lemma {:induction false} StepKeepsSound(env: Env, seeds: set<Job>, s: State, s': State, step: Step)
    requires Next(env, s, s', step) && Sound(env, seeds, s)
    ensures Sound(env, seeds, s')
  {
    forall j | Anywhere(s', j) ensures Discovered(env, seeds, j) {
      NewlyAnywhere(env, s, s', step, j);
      if !Anywhere(s, j) {
        var owner := s.pcs[step.c].job;
        assert owner in Known(s.pcs[step.c]);
        DiscoveredStep(env, seeds, owner, j);
      }
    }
  }

  lemma {:induction false} InitialSound(env: Env, seeds: set<Job>, s: State)
    requires Initial(s, seeds)
    ensures Sound(env, seeds, s)
  {
    forall j | Anywhere(s, j) ensures Discovered(env, seeds, j) {
      assert !Kept(s, j);
      var c :| c in s.pcs && j in Known(s.pcs[c]);
      InitiallyKnown(s, seeds, c, j);
      assert IsChain(env, seeds, [j]);
    }
  }

  lemma {:induction false} InitiallyKnown(s: State, seeds: set<Job>, c: nat, j: Job)
    requires Initial(s, seeds) && c in s.pcs && j in Known(s.pcs[c])
    ensures j in seeds
  {
    assert Targets([]) == {};
    var list: seq<Job> :| (forall k :: k in list ==> k in seeds) && s.pcs[c] == Working(None, EnqueueAll(list));
    var i :| 0 <= i < |list| && j in TargetsOf(EnqueueAll(list)[i]);
    assert EnqueueAll(list)[i] == Enqueue(list[i]);
  }

  lemma {:induction false} RunSound(env: Env, seeds: set<Job>, run: seq<State>, steps: seq<Step>, i: nat)
    requires IsRun(env, run, steps) && Initial(run[0], seeds) && i < |run|
    ensures Sound(env, seeds, run[i])
  {
    if i == 0 {
      InitialSound(env, seeds, run[0]);
    } else {
      RunSound(env, seeds, run, steps, i - 1);
      StepKeepsSound(env, seeds, run[i - 1], run[i], steps[i - 1]);
    }
  }

  /** In every run, every job anywhere has the depth of a real chain and respects
      the gate: pages strictly below the limit, everything else at most at it. */
  lemma {:induction false} RunDepths(env: Env, seeds: set<Job>, run: seq<State>, steps: seq<Step>, i: nat, j: Job)
    requires IsRun(env, run, steps) && Initial(run[0], seeds) && i < |run|
    requires SeedJobs(seeds) && 0 <= env.maxDepth
    requires Kept(run[i], j) || j in run[i].popped
    ensures exists chain :: IsChain(env, seeds, chain) && chain[|chain| - 1] == j && Depth(j) == Hops(chain)
    ensures if j.Page? then 0 <= j.depth < env.maxDepth else 0 <= Depth(j) <= env.maxDepth
  {
    RunSound(env, seeds, run, steps, i);
    assert Anywhere(run[i], j);
    var chain :| IsChain(env, seeds, chain) && chain[|chain| - 1] == j;
    ChainDepth(env, seeds, chain);
  }
}
