/**
 Coverage with any number of workers, the way the crawler is deployed. Several workers
 may meet a collection deeper than need be, and so on the depth limit, where it is not
 walked. A finished crawl has handled every resource the web offers exactly when what
 such collections would have led to has been handled all the same.
 */
module Coverage {
  import opened Jobs
  import opened Codec
  import opened Web
  import opened Protocol
  import opened Conservation
  import opened ExactlyOnce
  import opened Todo
  import opened Closure
  import opened DepthSoundness
  import opened BreadthFirst
  import opened MinimumDepth
  import opened Progress

  // ---- what fails discovers nothing ----

  ghost predicate Barren(env: Env, pc: Pc) {
    && (pc.Failing? ==> Successors(env, pc.job) == {})
    && (OwnerOf(pc).Some? && Raise in TodoOf(pc) ==> Successors(env, OwnerOf(pc).value) == {})
  }

  /** Without crashes only a plan that raises fails, and its job discovers nothing. */
  ghost predicate FailuresBarren(env: Env, s: State) {
    (forall j :: j in s.store.failed ==> Successors(env, j) == {}) && forall c :: c in s.pcs ==> Barren(env, s.pcs[c])
  }

  lemma {:induction false} StepFailuresBarren(env: Env, s: State, s': State, step: Step)
    requires Next(env, s, s', step) && !step.Crash? && FailuresBarren(env, s)
    ensures FailuresBarren(env, s')
  {
    hide Next, Successors, Barren;
    OnlyMoves(env, s, s', step);
    NewFailures(env, s, s', step);
    forall c | c in s'.pcs ensures Barren(env, s'.pcs[c]) {
      if c == step.c {
        StepBarren(env, s, s', step);
      }
    }
  }

  /** Only `Record` adds a failed job. */
  lemma {:induction false} NewFailures(env: Env, s: State, s': State, step: Step)
    requires Next(env, s, s', step) && FailuresBarren(env, s)
    ensures forall j :: j in s'.store.failed ==> Successors(env, j) == {}
  {
    hide Plan, Successors, IsFirst, Answers, Affect, Remaining, Hash;
  }

  lemma {:induction false} StepBarren(env: Env, s: State, s': State, step: Step)
    requires Next(env, s, s', step) && !step.Crash? && step.c in s.pcs && step.c in s'.pcs && Barren(env, s.pcs[step.c])
    ensures Barren(env, s'.pcs[step.c])
  {
    hide Plan, Successors, IsFirst, Answers, Affect, Hash;
    var pc := s.pcs[step.c];
    if step.Lease? {
      if Raise in Plan(env, pc.job) {
        RaisingPlanDiscoversNothing(env, pc.job);
      }
    } else if step.Act? {
      if Raise in Remaining(s.graph, pc.todo, step.order) {
        RaiseWasThere(s.graph, pc.todo, step.order);
      }
    }
  }

  lemma {:induction false} RaiseWasThere(g: Graph, todo: seq<Action>, order: seq<string>)
    requires todo != [] && Raise in Remaining(g, todo, order)
    ensures Raise in todo
  {
  }

  // ---- every seed is put in ----

  /** A seed has been seen, or some script will offer it. */
  ghost predicate SeedsKnown(env: Env, s: State, seeds: set<Job>) {
    forall k :: k in seeds ==> Seen(env, s, k) || exists c :: c in s.pcs && Script(s.pcs[c]) && k in Targets(s.pcs[c].todo)
  }

  lemma {:induction false} StepSeedsKnown(env: Env, s: State, s': State, step: Step, seeds: set<Job>)
    requires Next(env, s, s', step) && SeedsKnown(env, s, seeds) && ScriptsEnqueue(s)
    ensures SeedsKnown(env, s', seeds)
  {
    forall k | k in seeds && !Seen(env, s', k)
      ensures exists c :: c in s'.pcs && Script(s'.pcs[c]) && k in Targets(s'.pcs[c].todo)
    {
      SeenGrows(env, s, s', step);
      var c :| c in s.pcs && Script(s.pcs[c]) && k in Targets(s.pcs[c].todo);
      ScriptStill(env, s, s', step, c, k);
    }
  }

  lemma {:induction false} SeenGrows(env: Env, s: State, s': State, step: Step)
    requires Next(env, s, s', step)
    ensures s.store.seen <= s'.store.seen
  {
    hide Plan, IsFirst, Answers, Affect, Remaining, Hash;
  }

  lemma {:induction false} ScriptStill(env: Env, s: State, s': State, step: Step, c: nat, k: Job)
    requires Next(env, s, s', step) && ScriptsEnqueue(s) && !Seen(env, s', k)
    requires c in s.pcs && Script(s.pcs[c]) && k in Targets(s.pcs[c].todo)
    ensures c in s'.pcs && Script(s'.pcs[c]) && k in Targets(s'.pcs[c].todo)
  {
    hide Plan, IsFirst, Answers, Affect, Remaining, Targets;
    var todo := s.pcs[c].todo;
    if c == step.c {
      if todo == [] {
        NothingOffered();
        assert false;
      } else {
        TargetsTail(todo);
        assert todo[0].Enqueue?;
      }
    }
  }

  lemma {:induction false} NothingOffered()
    ensures Targets([]) == {}
  {
  }

  // ---- whole crawls ----

  /** A crawl by workers and seeding scripts that will enqueue exactly `seeds`. */
  ghost predicate Seeded(s: State, seeds: set<Job>) {
    Initial(s, seeds) && forall j :: j in seeds ==> exists c :: c in s.pcs && Script(s.pcs[c]) && j in Targets(s.pcs[c].todo)
  }

  ghost predicate NoCrash(steps: seq<Step>) {
    forall i :: 0 <= i < |steps| ==> !steps[i].Crash?
  }

  lemma {:induction false} RunCovers(env: Env, seeds: set<Job>, run: seq<State>, steps: seq<Step>, i: nat)
    requires IsRun(env, run, steps) && Seeded(run[0], seeds) && NoCrash(steps) && i < |run|
    ensures FailuresBarren(env, run[i]) && SeedsKnown(env, run[i], seeds)
  {
    hide Next, FailuresBarren, SeedsKnown, ScriptsEnqueue, Initial;
    if i == 0 {
      StartCovers(env, seeds, run[0]);
    } else {
      RunCovers(env, seeds, run, steps, i - 1);
      RunKeepsScripts(env, run, steps, seeds, i - 1);
      StepFailuresBarren(env, run[i - 1], run[i], steps[i - 1]);
      StepSeedsKnown(env, run[i - 1], run[i], steps[i - 1], seeds);
    }
  }

  lemma {:induction false} StartCovers(env: Env, seeds: set<Job>, s: State)
    requires Seeded(s, seeds)
    ensures FailuresBarren(env, s) && SeedsKnown(env, s, seeds)
  {
    hide Successors, Targets;
  }

  /** Nothing queued, and every coroutine idle, stopped or asleep. */
  ghost predicate AtRest(s: State) {
    s.store.queue == {} && forall c :: c in s.pcs ==> s.pcs[c] == Idle || s.pcs[c] == Stopped || s.pcs[c] == Sleeping
  }

  lemma {:induction false} RestIsQuiet(env: Env, s: State)
    requires Once(env, s) && AtRest(s)
    ensures Quiet(s)
  {
    hide OneToken, PoppedOnce;
    assert s.store.inflight.Keys == {};
  }

  /** A collection as deep as the limit: its handler does not walk it. */
  predicate OnLimit(env: Env, j: Job) {
    j.Collection? && env.maxDepth <= j.depth
  }

  /** `k` was handled, at whatever depth. */
  ghost predicate Met(s: State, k: Job) {
    exists h :: Handled(s, h) && SameResource(h, k)
  }

  /** The collection was handled on the limit as `h`, but can be met below it as `p`. */
  ghost predicate CutOff(env: Env, seeds: set<Job>, s: State, h: Job, p: Job) {
    Handled(s, h) && OnLimit(env, h) && SameResource(h, p) && Discovered(env, seeds, p) && Depth(p) < env.maxDepth
  }

  /** Whatever such a collection leads to below the limit has been handled. */
  ghost predicate LimitLosesNothing(env: Env, seeds: set<Job>, s: State) {
    forall h, p, k :: CutOff(env, seeds, s, h, p) && k in Successors(env, p) ==> Met(s, k)
  }

  /** No collection can be met both on the limit and below it. */
  ghost predicate LimitIsClear(env: Env, seeds: set<Job>) {
    forall h, p :: Discovered(env, seeds, h) && Discovered(env, seeds, p) && OnLimit(env, h) && SameResource(h, p) ==>
      env.maxDepth <= Depth(p)
  }

  /** Below the limit the depth at which a resource is met does not matter. */
  lemma {:induction false} UngatedDiscoversAll(env: Env, p: Job, q: Job, k: Job)
    requires SameResource(p, q) && k in Successors(env, p) && OwnerFits(q) && (q.Collection? ==> q.depth < env.maxDepth)
    ensures exists l :: l in Successors(env, q) && SameResource(l, k)
  {
    match p
    case Webfinger(_) => assert k in Successors(env, q);
    case Actor(a, _) =>
      var l := Collection(k.collectionId, a, k.direction, q.depth);
      assert l in Successors(env, q);
    case Collection(c, o, dir, d) =>
      var l := if k.Actor? then Actor(k.actorId, q.depth + 1) else Page(k.pageId, q.owner, q.direction, q.depth);
      assert l in Successors(env, q);
    case Page(c, o, dir, d) =>
      var l := if k.Actor? then Actor(k.actorId, q.depth + 1) else Page(k.pageId, q.owner, q.direction, q.depth);
      assert l in Successors(env, q);
  }

  /** Everything known of a finished crawl by any number of workers. */
  ghost predicate Complete(env: Env, seeds: set<Job>, s: State) {
    && Sound(env, seeds, s) && SeedJobs(seeds) && NoCollisions(env, seeds) && FailuresBarren(env, s)
    && (forall k :: k in seeds ==> Seen(env, s, k)) && CompletedClosed(env, s)
    && (forall h :: h in s.store.seen ==> Finished(env, s, h))
  }

  lemma {:induction false} SeenIsHandled(env: Env, seeds: set<Job>, s: State, k: Job)
    requires Complete(env, seeds, s) && Seen(env, s, k) && Discovered(env, seeds, k)
    ensures Met(s, k)
  {
    hide Discovered, SeedJobs, CompletedClosed, FailuresBarren;
    var h :| (h in s.completed || h in s.store.failed) && Hash(env, h) == Hash(env, k);
    assert Kept(s, h) && Anywhere(s, h);
    IdIdentifiesResource(h, k);
    assert Handled(s, h);
  }

  lemma {:induction false} ChainIsCovered(env: Env, seeds: set<Job>, s: State, chain: seq<Job>)
    requires Complete(env, seeds, s) && LimitLosesNothing(env, seeds, s) && IsChain(env, seeds, chain)
    ensures Met(s, chain[|chain| - 1])
  {
    hide Successors, Complete, LimitLosesNothing, Handled;
    var n := |chain|;
    var k := chain[n - 1];
    if n == 1 {
      SeedIsHandled(env, seeds, s, k, chain);
    } else {
      var rest, p := chain[..n - 1], chain[n - 2];
      assert forall i :: 0 <= i < n - 1 ==> rest[i] == chain[i];
      ChainIsCovered(env, seeds, s, rest);
      assert IsChain(env, seeds, rest) && rest[|rest| - 1] == p;
      var h :| Handled(s, h) && SameResource(h, p);
      SuccessorIsHandled(env, seeds, s, p, h, k);
    }
  }

  lemma {:induction false} SeedIsHandled(env: Env, seeds: set<Job>, s: State, k: Job, chain: seq<Job>)
    requires Complete(env, seeds, s) && k in seeds && chain == [k]
    ensures Met(s, k)
  {
    assert IsChain(env, seeds, chain);
    assert Discovered(env, seeds, k);
    SeenIsHandled(env, seeds, s, k);
  }

  lemma {:induction false} SuccessorIsHandled(env: Env, seeds: set<Job>, s: State, p: Job, h: Job, k: Job)
    requires Complete(env, seeds, s) && LimitLosesNothing(env, seeds, s) && Discovered(env, seeds, p)
    requires Handled(s, h) && SameResource(h, p) && k in Successors(env, p)
    ensures Met(s, k)
  {
    hide Discovered, Sound, SeedJobs, NoCollisions, Successors;
    if OnLimit(env, h) {
      WalkedBelow(env, p, h, k);
      assert CutOff(env, seeds, s, h, p);
    } else {
      HandledIsDiscovered(env, seeds, s, h);
      DiscoveredInRange(env, seeds, h);
      UngatedAtHand(env, s, p, h, k);
      var l :| l in Successors(env, h) && SameResource(l, k);
      assert h in s.completed && Seen(env, s, l);
      DiscoveredStep(env, seeds, h, l);
      SeenIsHandled(env, seeds, s, l);
      var g :| Handled(s, g) && SameResource(g, l);
      assert SameResource(g, k);
    }
  }

  /** A collection that discovers something is below the limit. */
  lemma {:induction false} WalkedBelow(env: Env, p: Job, h: Job, k: Job)
    requires h.Collection? && SameResource(h, p) && k in Successors(env, p)
    ensures Depth(p) < env.maxDepth
  {
  }

  lemma {:induction false} UngatedAtHand(env: Env, s: State, p: Job, h: Job, k: Job)
    requires FailuresBarren(env, s) && !OnLimit(env, h) && OwnerFits(h)
    requires Handled(s, h) && SameResource(h, p) && k in Successors(env, p)
    ensures exists l :: l in Successors(env, h) && SameResource(l, k)
    ensures h in s.completed
  {
    UngatedDiscoversAll(env, p, h, k);
  }

  /** With any number of workers and seeding scripts, in any interleaving without
      reaping, crashes and hash collisions, a finished crawl handled only what the web
      offers, and all of it exactly when the limit lost nothing. */
  lemma {:induction false} ManyWorkersCover(env: Env, seeds: set<Job>, run: seq<State>, steps: seq<Step>)
    requires IsRun(env, run, steps) && Seeded(run[0], seeds) && NoReaping(steps) && NoCrash(steps)
    requires SeedJobs(seeds) && NoCollisions(env, seeds) && AtRest(run[|steps|])
    ensures HandlesOnly(env, seeds, run[|steps|])
    ensures HandlesAll(env, seeds, run[|steps|]) <==> LimitLosesNothing(env, seeds, run[|steps|])
  {
    hide Next, Once, Sound, FailuresBarren, SeedsKnown, AtRest, Discovered, IsChain, SeedJobs, NoCollisions, Handled, Quiet,
         HandlesAll, LimitLosesNothing;
    var s := run[|steps|];
    RunIsComplete(env, seeds, run, steps);
    RunSound(env, seeds, run, steps, |steps|);
    forall h | Handled(s, h) ensures Discovered(env, seeds, h) {
      HandledIsDiscovered(env, seeds, s, h);
    }
    if LimitLosesNothing(env, seeds, s) {
      AllIsCovered(env, seeds, s);
    }
    if HandlesAll(env, seeds, s) {
      NothingIsLost(env, seeds, s);
    }
  }

  lemma {:induction false} AllIsCovered(env: Env, seeds: set<Job>, s: State)
    requires Complete(env, seeds, s) && LimitLosesNothing(env, seeds, s)
    ensures HandlesAll(env, seeds, s)
  {
    hide Complete, LimitLosesNothing, IsChain, Handled;
    forall j | Discovered(env, seeds, j) ensures Met(s, j) {
      DiscoveredIsCovered(env, seeds, s, j);
    }
    forall j | Discovered(env, seeds, j) ensures exists h :: Handled(s, h) && SameResource(h, j) {
      assert Met(s, j);
    }
  }

  lemma {:induction false} DiscoveredIsCovered(env: Env, seeds: set<Job>, s: State, j: Job)
    requires Complete(env, seeds, s) && LimitLosesNothing(env, seeds, s) && Discovered(env, seeds, j)
    ensures Met(s, j)
  {
    hide Complete, LimitLosesNothing, Handled;
    var chain :| IsChain(env, seeds, chain) && chain[|chain| - 1] == j;
    ChainIsCovered(env, seeds, s, chain);
  }

  lemma {:induction false} NothingIsLost(env: Env, seeds: set<Job>, s: State)
    requires HandlesAll(env, seeds, s)
    ensures LimitLosesNothing(env, seeds, s)
  {
    hide Handled, Discovered, Successors;
    forall h, p, k | CutOff(env, seeds, s, h, p) && k in Successors(env, p) ensures Met(s, k) {
      DiscoveredStep(env, seeds, p, k);
    }
  }

  lemma {:induction false} RunIsComplete(env: Env, seeds: set<Job>, run: seq<State>, steps: seq<Step>)
    requires IsRun(env, run, steps) && Seeded(run[0], seeds) && NoReaping(steps) && NoCrash(steps)
    requires SeedJobs(seeds) && NoCollisions(env, seeds) && AtRest(run[|steps|])
    ensures Complete(env, seeds, run[|steps|])
  {
    hide Next, Once, Sound, FailuresBarren, Discovered, IsChain, SeedJobs, NoCollisions, Quiet, Finished, Seen, CompletedClosed,
         Conserved, Grounded, FetchedKnown, Covered, Initial, NoReaping, NoCrash, Targets;
    var s := run[|steps|];
    RunOnce(env, run, steps, seeds, |steps|);
    RestIsQuiet(env, s);
    RunCovers(env, seeds, run, steps, |steps|);
    RunSound(env, seeds, run, steps, |steps|);
    RunInv(env, run, steps, seeds, |steps|);
    QuietIsClosed(env, run, steps, seeds, |steps|);
  }

  /** On a web where no collection can be met both on the limit and below it, a crawl by
      any number of workers handles exactly what the web offers. */
  lemma {:induction false} ClearLimitIsCovered(env: Env, seeds: set<Job>, run: seq<State>, steps: seq<Step>)
    requires IsRun(env, run, steps) && Seeded(run[0], seeds) && NoReaping(steps) && NoCrash(steps)
    requires SeedJobs(seeds) && NoCollisions(env, seeds) && AtRest(run[|steps|]) && LimitIsClear(env, seeds)
    ensures HandlesAll(env, seeds, run[|steps|]) && HandlesOnly(env, seeds, run[|steps|])
  {
    hide Next, Sound, Discovered, IsChain, SeedJobs, NoCollisions, Handled, HandlesAll, HandlesOnly, Initial, AtRest, NoReaping, NoCrash, Met;
    var s := run[|steps|];
    RunSound(env, seeds, run, steps, |steps|);
    forall h | Handled(s, h) ensures Discovered(env, seeds, h) {
      HandledIsDiscovered(env, seeds, s, h);
    }
    assert forall h, p :: !CutOff(env, seeds, s, h, p);
    ManyWorkersCover(env, seeds, run, steps);
  }
}
