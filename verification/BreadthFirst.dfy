/**
 With one worker the crawl is breadth-first: seeds first, no lease expiring, no hash
 collisions. Up to a depth limit of 99, which the queue's two digits can hold, jobs come
 out level by level. Up to 100 a finished crawl has handled exactly the resources the
 web offers within the gate, each at its smallest depth: what the two digits no longer
 tell apart then can do no harm any more.
 */
module BreadthFirst {
  import opened Options
  import opened Jobs
  import opened Codec
  import opened Web
  import opened Protocol
  import opened Conservation
  import opened ExactlyOnce
  import opened Todo
  import opened DepthSoundness

  /** The single worker's coroutine number. */
  const WORKER: nat := 0

  // ---- levels ----

  /** (depth, type) of `a` is not after that of `b`. */
  predicate LevelLe(a: Job, b: Job) {
    Depth(a) < Depth(b) || (Depth(a) == Depth(b) && TypeCode(a) <= TypeCode(b))
  }

  /** `b` may wait while `a` is handled: on the same level or later, and at most one
      hop deeper, in which case it is a member found by a collection or page. */
  predicate After(a: Job, b: Job) {
    LevelLe(a, b) && Depth(b) <= Depth(a) + 1 && (Depth(b) == Depth(a) + 1 ==> b.Actor? && TypeCode(a) >= 30)
  }

  lemma {:induction false} SuccessorsComeAfter(env: Env, j: Job, k: Job)
    requires k in Successors(env, j)
    ensures After(j, k)
    ensures k.Actor? && TypeCode(j) >= 30 ==> Depth(k) == Depth(j) + 1
  {
  }

  // ---- where two digits end ----

  /** With a larger limit the outcome is not breadth-first any more. */
  const DEEPEST_LIMIT: int := 100

  /** The last stage of the queue, in which its two digits leave depths apart untold:
      collections and pages of depth 99, and all that is deeper. */
  predicate Blurred(j: Job) {
    Depth(j) > 99 || (Depth(j) == 99 && TypeCode(j) >= 30)
  }

  /** `b` may be popped after `a`. */
  predicate InOrder(a: Job, b: Job) {
    if Blurred(a) then Blurred(b) else LevelLe(a, b)
  }

  /** `b` may wait while `a` is handled. */
  predicate MayWait(a: Job, b: Job) {
    if Blurred(a) then Blurred(b) else After(a, b)
  }

  lemma {:induction false} InOrderTransitive(a: Job, b: Job, c: Job)
    requires InOrder(a, b) && InOrder(b, c)
    ensures InOrder(a, c)
  {
  }

  /** Up to the limit the last stage discovers only jobs of the last stage: collections
      of depth 100 are not walked. */
  lemma {:induction false} SuccessorsMayWait(env: Env, j: Job, k: Job)
    requires k in Successors(env, j) && InRange(env, j) && env.maxDepth <= DEEPEST_LIMIT
    ensures MayWait(j, k)
  {
    hide Members, NextPage;
    SuccessorsComeAfter(env, j, k);
    if j.Collection? {
      WalksBelow(env, j, k);
    }
  }

  lemma {:induction false} WalksBelow(env: Env, j: Job, k: Job)
    requires k in Successors(env, j) && j.Collection?
    ensures j.depth < env.maxDepth && (k.Actor? || k.Page?)
  {
  }

  /** Two jobs waiting for the same one, in the order of their keys. */
  lemma {:induction false} KeyKeepsOrder(env: Env, last: Job, a: Job, b: Job)
    requires MayWait(last, a) && MayWait(last, b) && InRange(env, a) && InRange(env, b) && env.maxDepth <= DEEPEST_LIMIT
    requires Clamp(Depth(a)) < Clamp(Depth(b)) || (Clamp(Depth(a)) == Clamp(Depth(b)) && TypeCode(a) <= TypeCode(b))
    ensures MayWait(a, b)
  {
  }

  // ---- what chains guarantee ----

  predicate InRange(env: Env, j: Job) {
    0 <= Depth(j) && (Depth(j) == 0 || Depth(j) <= env.maxDepth) && (j.Page? ==> j.depth < env.maxDepth)
  }

  predicate OwnerFits(j: Job) {
    j.Collection? || j.Page? ==> Fits(j.owner)
  }

  lemma {:induction false} ChainInRange(env: Env, seeds: set<Job>, chain: seq<Job>)
    requires IsChain(env, seeds, chain) && SeedJobs(seeds)
    ensures InRange(env, chain[|chain| - 1]) && OwnerFits(chain[|chain| - 1])
  {
    var n := |chain|;
    if n > 1 {
      assert forall i :: 0 <= i < n - 1 ==> chain[..n - 1][i] == chain[i];
      ChainInRange(env, seeds, chain[..n - 1]);
      SuccessorInRange(env, chain[n - 2], chain[n - 1]);
    }
  }

  lemma {:induction false} SuccessorInRange(env: Env, j: Job, k: Job)
    requires k in Successors(env, j) && InRange(env, j)
    ensures InRange(env, k) && OwnerFits(k)
  {
  }

  lemma {:induction false} DiscoveredInRange(env: Env, seeds: set<Job>, j: Job)
    requires Discovered(env, seeds, j) && SeedJobs(seeds)
    ensures InRange(env, j) && OwnerFits(j)
  {
    var chain :| IsChain(env, seeds, chain) && chain[|chain| - 1] == j;
    ChainInRange(env, seeds, chain);
  }

  /** A resource met at a smaller depth discovers the same things, no deeper. */
  lemma {:induction false} ShallowerDiscoversMore(env: Env, p: Job, q: Job, k: Job)
    requires SameResource(p, q) && Depth(q) <= Depth(p) && k in Successors(env, p) && OwnerFits(q)
    ensures exists l :: l in Successors(env, q) && SameResource(l, k) && Depth(l) <= Depth(k)
  {
    match p
    case Webfinger(_) => assert k in Successors(env, q);
    case Actor(a, _) =>
      var l := Collection(k.collectionId, a, k.direction, q.depth);
      assert l in Successors(env, q);
    case Collection(c, o, dir, d) =>
      var l := if k.Actor? then Actor(k.actorId, q.depth + 1) else Page(k.pageId, q.owner, q.direction, q.depth);
      assert l in Successors(env, q);
    case Page(c, o, dir, d) =>
      var l := if k.Actor? then Actor(k.actorId, q.depth + 1) else Page(k.pageId, q.owner, q.direction, q.depth);
      assert l in Successors(env, q);
  }

  lemma {:induction false} RaisingPlanDiscoversNothing(env: Env, j: Job)
    requires Raise in Plan(env, j)
    ensures Successors(env, j) == {}
  {
  }

  // ---- the single worker ----

  ghost predicate SeedingOver(s: State) {
    forall c :: c in s.pcs && c != WORKER ==> s.pcs[c] == Stopped || s.pcs[c] == Sleeping
  }

  /** No lease expires, no unforeseen exception, and the seeds go in before the first pop. */
  ghost predicate Undisturbed(run: seq<State>, steps: seq<Step>)
    requires |run| == |steps| + 1
  {
    && NoReaping(steps)
    && (forall i :: 0 <= i < |steps| ==> !steps[i].Crash?)
    && (forall i :: 0 <= i < |steps| && steps[i].Pop? ==> SeedingOver(run[i]))
  }

  predicate OnlySeeds(pc: Pc) {
    pc == Stopped || pc == Sleeping || (pc.Working? && pc.owner.None?) || (pc.Admitting? && pc.owner.None?)
  }

  function JobInHand(pc: Pc): Option<Job> {
    match pc
    case Popped(j) => Some(j)
    case Working(owner, _) => owner
    case Admitting(owner, _, _) => owner
    case Failing(j) => Some(j)
    case _ => None
  }

  /** Coroutine 0 works on the job popped last; the others only seed. */
  ghost predicate Solo(s: State) {
    && WORKER in s.pcs
    && (forall c :: c in s.pcs && c != WORKER ==> OnlySeeds(s.pcs[c]))
    && (var pc := s.pcs[WORKER];
        (pc == Idle || pc == Stopped || JobInHand(pc).Some?) &&
        (JobInHand(pc).Some? ==> s.popped != [] && JobInHand(pc).value == s.popped[|s.popped| - 1]))
  }

  ghost predicate Waiting(s: State, j: Job) {
    Queued(s.store, j) || exists c :: c in s.pcs && Offers(s.pcs[c], j)
  }

  ghost predicate Offers(pc: Pc, j: Job) {
    j in Targets(TodoOf(pc)) || (pc.Admitting? && pc.job == j)
  }

  /** The queue is a frontier: everything waiting comes after the job popped last. */
  ghost predicate Frontier(env: Env, seeds: set<Job>, s: State) {
    && Built(s.store.queue, env.crc)
    && (s.popped == [] ==> forall j :: Waiting(s, j) ==> j in seeds)
    && (s.popped != [] ==> SeedingOver(s) && forall j :: Waiting(s, j) ==> MayWait(s.popped[|s.popped| - 1], j))
    && (forall i, k :: 0 <= i < k < |s.popped| ==> InOrder(s.popped[i], s.popped[k]))
  }

  lemma {:induction false} AnywhereInRange(env: Env, seeds: set<Job>, s: State, j: Job)
    requires SeedJobs(seeds) && Sound(env, seeds, s) && Anywhere(s, j)
    ensures InRange(env, j) && OwnerFits(j)
  {
    DiscoveredInRange(env, seeds, j);
  }

  lemma {:induction false} FirstComesFirst(env: Env, seeds: set<Job>, s: State, m: Member, x: Member)
    requires SeedJobs(seeds) && env.maxDepth <= DEEPEST_LIMIT && Sound(env, seeds, s) && Frontier(env, seeds, s)
    requires IsFirst(m, s.store.queue, env.json) && x in s.store.queue
    ensures MayWait(m.job, x.job)
  {
    hide Anywhere, Sound, SeedJobs, Before, InRange, MayWait;
    assert Queued(s.store, m.job) && Queued(s.store, x.job);
    assert Waiting(s, m.job) && Waiting(s, x.job);
    QueuedInRange(env, seeds, s, m.job);
    QueuedInRange(env, seeds, s, x.job);
    KeysInOrder(m, x, env.json);
    assert m == MemberOf(m.job, env.crc, m.ts) && x == MemberOf(x.job, env.crc, x.ts);
    if s.popped == [] {
      SeedsMayWait(seeds, m.job, x.job);
    } else {
      KeyKeepsOrder(env, s.popped[|s.popped| - 1], m.job, x.job);
    }
  }

  lemma {:induction false} QueuedInRange(env: Env, seeds: set<Job>, s: State, j: Job)
    requires SeedJobs(seeds) && Sound(env, seeds, s) && Queued(s.store, j)
    ensures InRange(env, j) && OwnerFits(j)
  {
    hide Sound, SeedJobs, InRange, OwnerFits;
    assert Anywhere(s, j);
    AnywhereInRange(env, seeds, s, j);
  }

  lemma {:induction false} KeysInOrder(m: Member, x: Member, json: JsonText)
    requires x == m || Before(m, x, json)
    ensures m.depth < x.depth || (m.depth == x.depth && m.code <= x.code)
  {
  }

  lemma {:induction false} SeedsMayWait(seeds: set<Job>, a: Job, b: Job)
    requires SeedJobs(seeds) && a in seeds && b in seeds
    requires Clamp(Depth(a)) < Clamp(Depth(b)) || (Clamp(Depth(a)) == Clamp(Depth(b)) && TypeCode(a) <= TypeCode(b))
    ensures MayWait(a, b)
  {
  }

  lemma {:induction false} PopKeepsFrontier(env: Env, seeds: set<Job>, s: State, s': State, step: Step)
    requires Next(env, s, s', step) && step.Pop? && step.c == WORKER && SeedingOver(s)
    requires SeedJobs(seeds) && env.maxDepth <= DEEPEST_LIMIT && Sound(env, seeds, s) && Solo(s) && Frontier(env, seeds, s)
    ensures Frontier(env, seeds, s')
  {
    hide Sound, SeedJobs, Plan, Answers, Affect, Remaining, Before, MayWait, InOrder;
    var m, n := step.m, |s.popped|;
    assert Queued(s.store, m.job);
    assert Waiting(s, m.job);
    assert Targets([]) == {};
    forall j | Waiting(s', j) ensures MayWait(m.job, j) {
      var x :| x in s'.store.queue && x.job == j;
      FirstComesFirst(env, seeds, s, m, x);
    }
    forall i, k | 0 <= i < k < |s'.popped| ensures InOrder(s'.popped[i], s'.popped[k]) {
      if k == n {
        WaitsInOrder(s.popped[n - 1], m.job);
        if i < n - 1 {
          InOrderTransitive(s.popped[i], s.popped[n - 1], m.job);
        }
      }
    }
  }

  lemma {:induction false} WaitsInOrder(a: Job, b: Job)
    requires MayWait(a, b)
    ensures InOrder(a, b)
  {
  }

  /** Other steps make a job wait only when it was waiting, or the job in hand discovers it. */
  lemma {:induction false} NewlyWaiting(env: Env, s: State, s': State, step: Step, j: Job)
    requires Next(env, s, s', step) && !step.Pop? && !step.Scan? && Solo(s) && Waiting(s', j)
    ensures Waiting(s, j) || (step.Lease? && step.c == WORKER && j in Successors(env, s.pcs[WORKER].job))
  {
    if Queued(s'.store, j) {
      var m :| m in s'.store.queue && m.job == j;
      assert m in s.store.queue ==> Queued(s.store, j);
      assert m !in s.store.queue ==> Offers(s.pcs[step.c], j);
    } else {
      var c :| c in s'.pcs && Offers(s'.pcs[c], j);
      if c == step.c {
        NewlyOffered(env, s, s', step, j);
      }
    }
  }

  lemma {:induction false} NewlyOffered(env: Env, s: State, s': State, step: Step, j: Job)
    requires Next(env, s, s', step) && !step.Pop? && !step.Scan? && Solo(s) && Offers(s'.pcs[step.c], j)
    ensures Offers(s.pcs[step.c], j) || (step.Lease? && step.c == WORKER && j in Successors(env, s.pcs[WORKER].job))
  {
    var pc := s.pcs[step.c];
    assert Targets([]) == {};
    if step.Lease? {
      PlanDiscoversSuccessors(env, pc.job);
    } else if step.Act? {
      RemainingTargets(s.graph, pc.todo, step.order);
    } else if step.Admit? {
      TargetsTail(pc.todo);
    }
  }

  lemma {:induction false} StepKeepsFrontier(env: Env, seeds: set<Job>, s: State, s': State, step: Step)
    requires Next(env, s, s', step) && !step.Scan? && (step.Pop? ==> SeedingOver(s))
    requires SeedJobs(seeds) && env.maxDepth <= DEEPEST_LIMIT && Sound(env, seeds, s) && Solo(s) && Frontier(env, seeds, s)
    ensures Frontier(env, seeds, s')
  {
    hide Next, Solo, Sound, Frontier, SeedJobs, SeedingOver;
    if step.Pop? {
      OnlyWorkerPops(env, s, s', step);
      PopKeepsFrontier(env, seeds, s, s', step);
    } else {
      OtherKeepsFrontier(env, seeds, s, s', step);
    }
  }

  lemma {:induction false} OnlyWorkerPops(env: Env, s: State, s': State, step: Step)
    requires Next(env, s, s', step) && step.Pop? && Solo(s)
    ensures step.c == WORKER
  {
    hide Plan, Answers, Affect, Remaining, IsFirst;
  }

  lemma {:induction false} OtherKeepsFrontier(env: Env, seeds: set<Job>, s: State, s': State, step: Step)
    requires Next(env, s, s', step) && !step.Scan? && !step.Pop? && Solo(s) && Frontier(env, seeds, s)
    requires SeedJobs(seeds) && env.maxDepth <= DEEPEST_LIMIT && Sound(env, seeds, s)
    ensures Frontier(env, seeds, s')
  {
    hide Plan, Successors, Answers, Affect, Remaining, IsFirst, Waiting, Sound, SeedJobs, MayWait, InOrder;
    forall j | Waiting(s', j)
      ensures if s.popped == [] then j in seeds else MayWait(s.popped[|s.popped| - 1], j)
    {
      NewlyWaiting(env, s, s', step, j);
      if !Waiting(s, j) {
        var p := s.pcs[WORKER].job;
        assert p in s.popped;
        AnywhereInRange(env, seeds, s, p);
        SuccessorsMayWait(env, p, j);
      }
    }
  }

  lemma {:induction false} StepKeepsSolo(env: Env, s: State, s': State, step: Step)
    requires Next(env, s, s', step) && !step.Scan? && Solo(s)
    ensures Solo(s')
  {
    hide Answers, Remaining, Hash;
  }
}
