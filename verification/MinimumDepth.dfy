/**
 The outcome of a breadth-first crawl: every resource the web offers within the
 gate is handled, at its minimum depth, and the graph records that depth.
 */
module MinimumDepth {
  import opened Options
  import opened Jobs
  import opened Codec
  import opened Web
  import opened Protocol
  import opened Conservation
  import opened ExactlyOnce
  import opened Todo
  import opened Closure
  import opened DepthSoundness
  import opened BreadthFirst

  /** No two ids the crawl can meet share a hash. */
  ghost predicate NoCollisions(env: Env, seeds: set<Job>) {
    forall j, k :: Discovered(env, seeds, j) && Discovered(env, seeds, k) && Hash(env, j) == Hash(env, k) ==> Id(j) == Id(k)
  }

  /** The crawl holds the resource of `k`, at no greater depth. */
  ghost predicate Reached(s: State, k: Job) {
    exists j :: Kept(s, j) && SameResource(j, k) && Depth(j) <= Depth(k)
  }

  /** What the worker's job discovers is reached or still to be offered, and it offers nothing else. */
  ghost predicate WorkerCovers(env: Env, s: State, pc: Pc) {
    OwnerOf(pc).Some? ==>
      Targets(TodoOf(pc)) <= Successors(env, OwnerOf(pc).value) &&
      forall k :: k in Successors(env, OwnerOf(pc).value) ==> Reached(s, k) || k in Targets(TodoOf(pc))
  }

  ghost predicate SeedsCovered(s: State, seeds: set<Job>) {
    forall k :: k in seeds ==> Reached(s, k) || exists c :: c in s.pcs && k in Targets(TodoOf(s.pcs[c]))
  }

  ghost predicate CompletedReach(env: Env, s: State) {
    forall p, k :: p in s.completed && k in Successors(env, p) ==> Reached(s, k)
  }

  /** Only a plan that raises fails, and such a job discovers nothing. */
  ghost predicate FailsOnRaise(env: Env, s: State, pc: Pc) {
    && (forall j :: j in s.store.failed ==> Successors(env, j) == {})
    && (pc.Failing? ==> Successors(env, pc.job) == {})
    && (OwnerOf(pc).Some? && Raise in TodoOf(pc) ==> Successors(env, OwnerOf(pc).value) == {})
  }

  /** A running actor job ends by saving its depth, unless it raises. */
  predicate SavesLast(g: Graph, owner: Job, todo: seq<Action>) {
    owner.Actor? ==>
      if todo == [] then owner.actorId in g.depth && g.depth[owner.actorId] == owner.depth
      else todo[|todo| - 1] == Raise ||
           (todo[|todo| - 1].SaveActor? && todo[|todo| - 1].actorId == owner.actorId && todo[|todo| - 1].depth == owner.depth)
  }

  /** A pending depth write is next and touches only labels without a depth. */
  predicate WritesFresh(g: Graph, todo: seq<Action>) {
    forall i :: 0 <= i < |todo| && todo[i].WriteDepth? ==> i == 0 && Elements(todo[i].ids) !! g.depth.Keys
  }

  /** A completed actor job left its depth in the graph. */
  ghost predicate CompletedDepths(s: State) {
    forall a, d :: Actor(a, d) in s.completed ==> a in s.graph.depth && s.graph.depth[a] == d
  }

  /** Only a handled actor carries a `last_fetch_date`. */
  ghost predicate FetchedHandled(s: State, pc: Pc) {
    forall a :: a in s.graph.fetched ==> (exists d :: Actor(a, d) in s.completed) || JustSaved(pc, a)
  }

  predicate JustSaved(pc: Pc, a: string) {
    pc.Working? && pc.owner.Some? && pc.owner.value.Actor? && pc.owner.value.actorId == a && pc.todo == []
  }

  ghost predicate WorkerSaves(s: State, pc: Pc) {
    && (OwnerOf(pc).Some? ==> SavesLast(s.graph, OwnerOf(pc).value, TodoOf(pc)))
    && (pc.Admitting? && pc.owner.Some? && pc.owner.value.Actor? ==> pc.todo != [])
    && WritesFresh(s.graph, TodoOf(pc))
  }

  ghost predicate GraphDepths(s: State, pc: Pc) {
    CompletedDepths(s) && FetchedHandled(s, pc) && WorkerSaves(s, pc)
  }

  /** Seeding scripts only enqueue. */
  ghost predicate SeedersEnqueue(s: State) {
    forall c, i :: c in s.pcs && c != WORKER && 0 <= i < |TodoOf(s.pcs[c])| ==> TodoOf(s.pcs[c])[i].Enqueue?
  }

  ghost predicate Best(env: Env, seeds: set<Job>, s: State) {
    && WORKER in s.pcs
    && WorkerCovers(env, s, s.pcs[WORKER]) && SeedsCovered(s, seeds) && CompletedReach(env, s)
    && FailsOnRaise(env, s, s.pcs[WORKER]) && GraphDepths(s, s.pcs[WORKER]) && SeedersEnqueue(s)
    && Covered(env, s)
  }

  /** Everything proved so far about the state of a single-worker crawl. */
  ghost predicate Orderly(env: Env, seeds: set<Job>, s: State) {
    && Once(env, s) && Sound(env, seeds, s) && Solo(s) && Frontier(env, seeds, s) && Inv(env, s)
    && SeedJobs(seeds) && env.maxDepth <= DEEPEST_LIMIT
  }

  lemma {:induction false} StepKeepsReached(env: Env, s: State, s': State, step: Step, k: Job)
    requires Next(env, s, s', step) && Reached(s, k)
    ensures Reached(s', k)
  {
    var j :| Kept(s, j) && SameResource(j, k) && Depth(j) <= Depth(k);
    StepKeeps(env, s, s', step, j);
  }

  /** What the job in hand discovers is met no deeper among the jobs popped before. */
  lemma {:induction false} PoppedIsNotDeeper(env: Env, seeds: set<Job>, s: State, j: Job, k: Job)
    requires Orderly(env, seeds, s) && j in s.popped && SameResource(j, k)
    requires k in Successors(env, s.popped[|s.popped| - 1])
    ensures Depth(j) <= Depth(k)
  {
    hide Once, Inv, Sound, SeedJobs, Solo, Successors;
    var i :| 0 <= i < |s.popped| && s.popped[i] == j;
    var last := s.popped[|s.popped| - 1];
    assert last in s.popped;
    AnywhereInRange(env, seeds, s, last);
    AnywhereInRange(env, seeds, s, j);
    SuccessorsMayWait(env, last, k);
    assert j == last || InOrder(j, last);
    DiscoveredLate(env, last, j, k);
  }

  lemma {:induction false} DiscoveredLate(env: Env, last: Job, j: Job, k: Job)
    requires j == last || InOrder(j, last)
    requires k in Successors(env, last) && SameResource(j, k) && MayWait(last, k)
    requires InRange(env, last) && InRange(env, j) && env.maxDepth <= DEEPEST_LIMIT
    ensures Depth(j) <= Depth(k)
  {
    SuccessorsComeAfter(env, last, k);
    CollectionsComeFromActors(env, last, k);
  }

  lemma {:induction false} CollectionsComeFromActors(env: Env, p: Job, k: Job)
    requires k in Successors(env, p)
    ensures k.Collection? ==> p.Actor? && k.depth == p.depth
  {
  }

  /** Whatever holds the hash of an offered job holds its resource, no deeper. */
  lemma {:induction false} SeenIsReached(env: Env, seeds: set<Job>, s: State, c: nat, k: Job)
    requires Orderly(env, seeds, s) && NoCollisions(env, seeds) && SeedJobs(seeds) && Best(env, seeds, s)
    requires c in s.pcs && s.pcs[c].Working? && k in Targets(s.pcs[c].todo) && Hash(env, k) in s.store.seen
    ensures Reached(s, k)
  {
    var t :| Present(s, t) && Hash(env, JobOf(t)) == Hash(env, k);
    var j := JobOf(t);
    PresentIsKept(s, t);
    assert Anywhere(s, j);
    assert k in Known(s.pcs[c]) && Anywhere(s, k);
    IdIdentifiesResource(j, k);
    TokenIsNotDeeper(env, seeds, s, c, t, k);
  }

  lemma {:induction false} TokenIsNotDeeper(env: Env, seeds: set<Job>, s: State, c: nat, t: Token, k: Job)
    requires Orderly(env, seeds, s) && Best(env, seeds, s) && Present(s, t) && Anywhere(s, JobOf(t)) && SameResource(JobOf(t), k)
    requires c in s.pcs && s.pcs[c].Working? && k in Targets(s.pcs[c].todo)
    ensures Depth(JobOf(t)) <= Depth(k)
  {
    hide OneToken, LeasesHeld, LeasesOwned, Inv, Sound, Successors, Anywhere, Best;
    if s.popped == [] {
      assert !Taken(s, t);
      UntakenWaits(s, t);
      assert Offers(s.pcs[c], k) && Waiting(s, k);
    } else {
      OfferedByLast(env, seeds, s, c, k);
      if Taken(s, t) {
        PoppedIsNotDeeper(env, seeds, s, JobOf(t), k);
      } else {
        UntakenWaits(s, t);
        WaitingIsNotDeeper(env, seeds, s, JobOf(t), k);
      }
    }
  }

  /** Once the seeds are in, only the job in hand offers anything. */
  lemma {:induction false} OfferedByLast(env: Env, seeds: set<Job>, s: State, c: nat, k: Job)
    requires Orderly(env, seeds, s) && Best(env, seeds, s) && s.popped != []
    requires c in s.pcs && s.pcs[c].Working? && k in Targets(s.pcs[c].todo)
    ensures k in Successors(env, s.popped[|s.popped| - 1])
  {
    hide Once, Inv, Sound, SeedJobs, Successors, Targets, SeedsCovered, CompletedReach, FailsOnRaise, GraphDepths, Reached, Covered;
    assert c == WORKER;
    assert OwnerOf(s.pcs[WORKER]).Some?;
  }

  lemma {:induction false} PresentIsKept(s: State, t: Token)
    requires Present(s, t)
    ensures Kept(s, JobOf(t))
  {
    if t.InQueue? {
      assert Queued(s.store, t.m.job);
    } else if t.InHand? {
      assert InTransit(s.pcs, t.job);
    }
  }

  lemma {:induction false} UntakenWaits(s: State, t: Token)
    requires Present(s, t) && !Taken(s, t)
    ensures Waiting(s, JobOf(t))
  {
    if t.InQueue? {
      assert Queued(s.store, t.m.job);
    } else {
      assert Offers(s.pcs[t.c], t.job);
    }
  }

  /** Nor is it met deeper among the jobs that wait. */
  lemma {:induction false} WaitingIsNotDeeper(env: Env, seeds: set<Job>, s: State, j: Job, k: Job)
    requires Orderly(env, seeds, s) && s.popped != [] && Waiting(s, j) && Anywhere(s, j) && SameResource(j, k)
    requires k in Successors(env, s.popped[|s.popped| - 1])
    ensures Depth(j) <= Depth(k)
  {
    hide Once, Inv, Sound, SeedJobs, Solo, Successors, Waiting, Anywhere;
    var last := s.popped[|s.popped| - 1];
    assert last in s.popped;
    LastIsAnywhere(s, last);
    AnywhereInRange(env, seeds, s, last);
    AnywhereInRange(env, seeds, s, j);
    SuccessorsMayWait(env, last, k);
    WaitedLong(env, last, j, k);
  }

  lemma {:induction false} LastIsAnywhere(s: State, j: Job)
    requires j in s.popped
    ensures Anywhere(s, j)
  {
  }

  lemma {:induction false} WaitedLong(env: Env, last: Job, j: Job, k: Job)
    requires k in Successors(env, last) && SameResource(j, k) && MayWait(last, j) && MayWait(last, k)
    requires InRange(env, last) && InRange(env, j) && env.maxDepth <= DEEPEST_LIMIT
    ensures Depth(j) <= Depth(k)
  {
    SuccessorsComeAfter(env, last, k);
    CollectionsComeFromActors(env, last, k);
  }

  // ---- each step keeps the bookkeeping ----

  lemma {:induction false} StepWorkerCovers(env: Env, seeds: set<Job>, s: State, s': State, step: Step)
    requires Next(env, s, s', step) && !step.Scan? && Best(env, seeds, s) && Orderly(env, seeds, s)
    requires NoCollisions(env, seeds) && SeedJobs(seeds)
    ensures WORKER in s'.pcs && WorkerCovers(env, s', s'.pcs[WORKER])
  {
    hide Once, Inv, Sound, Frontier, GraphDepths, FailsOnRaise, CompletedReach, SeedsCovered, SeedersEnqueue, Covered, Reached, NoCollisions, SeedJobs, Plan, Successors, IsFirst, Targets;
    var pc, pc' := s.pcs[WORKER], s'.pcs[WORKER];
    if OwnerOf(pc').Some? {
      var own := OwnerOf(pc').value;
      if step.c == WORKER {
        if step.Lease? {
          PlanDiscoversSuccessors(env, own);
        } else if step.Act? {
          RemainingTargets(s.graph, pc.todo, step.order);
        } else if step.Admit? {
          TargetsTail(pc.todo);
        }
      }
      forall k | k in Successors(env, own) && k !in Targets(TodoOf(pc')) ensures Reached(s', k) {
        LeftIsReached(env, seeds, s, s', step, k);
      }
    }
  }

  lemma {:induction false} LeftIsReached(env: Env, seeds: set<Job>, s: State, s': State, step: Step, k: Job)
    requires Next(env, s, s', step) && !step.Scan? && Best(env, seeds, s) && Orderly(env, seeds, s)
    requires NoCollisions(env, seeds) && SeedJobs(seeds)
    requires WORKER in s'.pcs && OwnerOf(s'.pcs[WORKER]).Some? && k in Successors(env, OwnerOf(s'.pcs[WORKER]).value)
    requires k !in Targets(TodoOf(s'.pcs[WORKER]))
    ensures Reached(s', k)
  {
    hide Once, Inv, Sound, Frontier, GraphDepths, FailsOnRaise, CompletedReach, SeedsCovered, SeedersEnqueue, Covered, Reached, NoCollisions, SeedJobs, Plan, Successors, IsFirst, Targets;
    var pc := s.pcs[WORKER];
    if step.Lease? && step.c == WORKER {
      PlanDiscoversSuccessors(env, pc.job);
    } else if k !in Targets(TodoOf(pc)) {
      StepKeepsReached(env, s, s', step, k);
    } else if step.Admit? {
      TargetsTail(pc.todo);
      AdmittedIsReached(env, seeds, s, s', step);
    } else {
      assert step.Act?;
      DroppedIsReached(env, seeds, s, step.order, k);
      StepKeepsReached(env, s, s', step, k);
    }
  }

  lemma {:induction false} AdmittedIsReached(env: Env, seeds: set<Job>, s: State, s': State, step: Step)
    requires Next(env, s, s', step) && step.Admit? && Best(env, seeds, s) && Orderly(env, seeds, s)
    requires NoCollisions(env, seeds) && SeedJobs(seeds)
    ensures Reached(s', s.pcs[step.c].todo[0].job)
  {
    hide Orderly, Best, NoCollisions, SeedJobs, Plan, Successors;
    var pc := s.pcs[step.c];
    var k := pc.todo[0].job;
    TargetsTail(pc.todo);
    if Hash(env, k) in s.store.seen {
      SeenIsReached(env, seeds, s, step.c, k);
      StepKeepsReached(env, s, s', step, k);
    } else {
      NowInTransit(s.pcs, step.c, s'.pcs[step.c], k);
      assert Kept(s', k);
    }
  }

  /** A member left out because it carries a `last_fetch_date` was handled before,
      and the skip guard never fires. */
  lemma {:induction false} DroppedIsReached(env: Env, seeds: set<Job>, s: State, order: seq<string>, k: Job)
    requires Best(env, seeds, s) && Orderly(env, seeds, s)
    requires s.pcs[WORKER].Working? && s.pcs[WORKER].owner.Some? && s.pcs[WORKER].todo != []
    requires !s.pcs[WORKER].todo[0].Enqueue? && Answers(s.graph, s.pcs[WORKER].todo[0], order)
    requires k in Targets(s.pcs[WORKER].todo) && k !in Targets(Remaining(s.graph, s.pcs[WORKER].todo, order))
    ensures Reached(s, k)
  {
    var pc := s.pcs[WORKER];
    RemainingTargets(s.graph, pc.todo, order);
    GuardNeverFires(env, seeds, s);
    var d :| Actor(k.actorId, d) in s.completed;
    var j := Actor(k.actorId, d);
    assert Taken(s, DidComplete(j)) && Kept(s, j);
    OfferedByLast(env, seeds, s, WORKER, k);
    PoppedIsNotDeeper(env, seeds, s, j, k);
  }

  lemma {:induction false} GuardNeverFires(env: Env, seeds: set<Job>, s: State)
    requires Best(env, seeds, s) && Orderly(env, seeds, s)
    requires s.pcs[WORKER].Working? && s.pcs[WORKER].owner.Some? && s.pcs[WORKER].todo != []
    ensures s.pcs[WORKER].todo[0].StopIfFetched? ==> s.pcs[WORKER].todo[0].actorId !in s.graph.fetched
  {
    var pc := s.pcs[WORKER];
    assert CoveredAt(env, s, pc);
    if pc.todo[0].StopIfFetched? && pc.todo[0].actorId in s.graph.fetched {
      var a := pc.todo[0].actorId;
      var d :| Actor(a, d) in s.completed;
      assert Id(Actor(a, d)) == Id(pc.owner.value);
      assert Present(s, DidComplete(Actor(a, d))) && Present(s, OnLease(pc.owner.value));
      assert false;
    }
  }

  lemma {:induction false} StepSeedsCovered(env: Env, seeds: set<Job>, s: State, s': State, step: Step)
    requires Next(env, s, s', step) && !step.Scan? && !step.Crash? && Best(env, seeds, s) && Orderly(env, seeds, s)
    requires NoCollisions(env, seeds) && SeedJobs(seeds)
    ensures SeedsCovered(s', seeds)
  {
    hide Orderly, Plan, Successors, NoCollisions, SeedJobs, Reached, IsFirst, CompletedReach, GraphDepths, FailsOnRaise, WorkerCovers, SeedersEnqueue, Covered, Answers, Targets;
    forall k | k in seeds && !Reached(s', k) ensures exists c :: c in s'.pcs && k in Targets(TodoOf(s'.pcs[c])) {
      if Reached(s, k) {
        StepKeepsReached(env, s, s', step, k);
      }
      var c :| c in s.pcs && k in Targets(TodoOf(s.pcs[c]));
      assert Targets([]) == {};
      if c == step.c {
        SeedStaysOffered(env, seeds, s, s', step, k);
      }
      assert k in Targets(TodoOf(s'.pcs[c]));
    }
  }

  lemma {:induction false} SeedStaysOffered(env: Env, seeds: set<Job>, s: State, s': State, step: Step, k: Job)
    requires Next(env, s, s', step) && !step.Scan? && !step.Crash? && Best(env, seeds, s) && Orderly(env, seeds, s)
    requires NoCollisions(env, seeds) && SeedJobs(seeds)
    requires step.c in s.pcs && k in Targets(TodoOf(s.pcs[step.c])) && !Reached(s', k)
    ensures step.c in s'.pcs && k in Targets(TodoOf(s'.pcs[step.c]))
  {
    hide Reached, Plan, Successors, NoCollisions, SeedJobs, IsFirst, CompletedReach, GraphDepths, WorkerCovers, SeedsCovered, Covered, Once, Inv, Sound, Frontier;
    var pc := s.pcs[step.c];
    if step.Admit? {
      TargetsTail(pc.todo);
      AdmittedIsReached(env, seeds, s, s', step);
    } else if step.Act? {
      assert step.c == WORKER;
      if k !in Targets(Remaining(s.graph, pc.todo, step.order)) {
        DroppedIsReached(env, seeds, s, step.order, k);
        StepKeepsReached(env, s, s', step, k);
      }
    } else if step.Give? {
      GivingOffersNothing(env, seeds, s, s', step);
    }
  }

  lemma {:induction false} GivingOffersNothing(env: Env, seeds: set<Job>, s: State, s': State, step: Step)
    requires Next(env, s, s', step) && step.Give? && Best(env, seeds, s) && Solo(s)
    ensures Targets(TodoOf(s.pcs[step.c])) == {}
  {
    assert step.c == WORKER;
    assert Raise in TodoOf(s.pcs[WORKER]);
  }

  lemma {:induction false} StepCompletedReach(env: Env, seeds: set<Job>, s: State, s': State, step: Step)
    requires Next(env, s, s', step) && !step.Scan? && Best(env, seeds, s) && Solo(s)
    ensures CompletedReach(env, s')
  {
    hide Plan, Successors, IsFirst, Reached, GraphDepths, FailsOnRaise, SeedsCovered, Covered;
    assert Targets([]) == {};
    forall p, k | p in s'.completed && k in Successors(env, p) ensures Reached(s', k) {
      assert Reached(s, k);
      StepKeepsReached(env, s, s', step, k);
    }
  }

  lemma {:induction false} StepFailsOnRaise(env: Env, seeds: set<Job>, s: State, s': State, step: Step)
    requires Next(env, s, s', step) && !step.Scan? && !step.Crash? && Best(env, seeds, s) && Solo(s)
    ensures WORKER in s'.pcs && FailsOnRaise(env, s', s'.pcs[WORKER])
  {
    hide Plan, IsFirst, CompletedReach, WorkerCovers, SeedsCovered, Covered, GraphDepths, Targets, Successors, Answers;
    if step.Lease? && step.c == WORKER {
      if Raise in Plan(env, s.pcs[WORKER].job) {
        RaisingPlanDiscoversNothing(env, s.pcs[WORKER].job);
      }
    }
  }

  lemma {:induction false} PlanSavesLast(env: Env, g: Graph, job: Job)
    ensures SavesLast(g, job, Plan(env, job)) && WritesFresh(g, Plan(env, job))
    ensures job.Actor? ==> Plan(env, job) != []
  {
  }

  lemma {:induction false} OwnerNotCompleted(env: Env, s: State, a: string, d: int)
    requires Once(env, s) && WORKER in s.pcs && OwnerOf(s.pcs[WORKER]).Some?
    requires OwnerOf(s.pcs[WORKER]).value.Actor? && OwnerOf(s.pcs[WORKER]).value.actorId == a
    ensures Actor(a, d) !in s.completed
  {
    var own := OwnerOf(s.pcs[WORKER]).value;
    assert Present(s, OnLease(own)) && Id(own) == Id(Actor(a, d));
    assert Actor(a, d) in s.completed ==> Present(s, DidComplete(Actor(a, d)));
  }

  lemma {:induction false} StepCompletedDepths(env: Env, seeds: set<Job>, s: State, s': State, step: Step)
    requires Next(env, s, s', step) && !step.Scan? && Best(env, seeds, s) && Once(env, s) && Solo(s)
    ensures CompletedDepths(s')
  {
    hide Once, Plan, Successors, IsFirst, CompletedReach, FailsOnRaise, WorkerCovers, SeedsCovered, AllSeen, Answers, Remaining;
    var pc := s.pcs[step.c];
    forall a, d | Actor(a, d) in s'.completed ensures a in s'.graph.depth && s'.graph.depth[a] == d {
      if step.Act? {
        assert step.c == WORKER;
        if pc.todo[0].SaveActor? && pc.todo[0].actorId == a {
          assert CoveredAt(env, s, pc);
          OwnerNotCompleted(env, s, a, d);
        }
      }
    }
  }

  lemma {:induction false} StepFetchedHandled(env: Env, seeds: set<Job>, s: State, s': State, step: Step)
    requires Next(env, s, s', step) && !step.Scan? && !step.Crash? && Best(env, seeds, s) && Once(env, s) && Solo(s)
    ensures WORKER in s'.pcs && FetchedHandled(s', s'.pcs[WORKER])
  {
    hide Once, Plan, Successors, IsFirst, CompletedReach, FailsOnRaise, WorkerCovers, SeedsCovered, AllSeen, Answers;
    var pc := s.pcs[step.c];
    forall a | a in s'.graph.fetched ensures (exists d :: Actor(a, d) in s'.completed) || JustSaved(s'.pcs[WORKER], a) {
      if a !in s.graph.fetched {
        assert step.c == WORKER && CoveredAt(env, s, pc) && |pc.todo| == 1;
      } else if exists d :: Actor(a, d) in s.completed {
        var d :| Actor(a, d) in s.completed;
        assert Actor(a, d) in s'.completed;
      } else if step.Complete? && step.c == WORKER {
        assert Actor(a, pc.owner.value.depth) in s'.completed;
      }
    }
  }

  lemma {:induction false} StepWorkerSaves(env: Env, seeds: set<Job>, s: State, s': State, step: Step)
    requires Next(env, s, s', step) && !step.Scan? && !step.Crash? && Best(env, seeds, s) && Orderly(env, seeds, s)
    ensures WORKER in s'.pcs && WorkerSaves(s', s'.pcs[WORKER])
  {
    hide Once, Sound, Frontier, Plan, Successors, IsFirst, CompletedReach, FailsOnRaise, WorkerCovers, SeedsCovered, CompletedDepths, FetchedHandled, AllSeen, Answers, Remaining, Affect, Elements, Targets, Inv;
    var pc := s.pcs[WORKER];
    if step.c == WORKER {
      if step.Lease? {
        PlanSavesLast(env, s.graph, pc.job);
      } else if step.Act? {
        GuardNeverFires(env, seeds, s);
        assert CoveredAt(env, s, pc);
        ActWritesFresh(s.graph, pc.todo, step.order);
        if pc.owner.Some? {
          ActSavesLast(s.graph, pc.owner.value, pc.todo, step.order);
        }
      } else if step.Admit? {
        assert forall i :: 0 <= i < |pc.todo| - 1 ==> pc.todo[1..][i] == pc.todo[i + 1];
      }
    }
  }

  lemma {:induction false} ActWritesFresh(g: Graph, todo: seq<Action>, order: seq<string>)
    requires todo != [] && Answers(g, todo[0], order) && WritesFresh(g, todo)
    ensures WritesFresh(Affect(g, todo[0]), Remaining(g, todo, order))
  {
    var rest := todo[1..];
    var left := Remaining(g, todo, order);
    assert forall i :: 0 <= i < |rest| ==> rest[i] == todo[i + 1] && !rest[i].WriteDepth?;
    forall i | 0 <= i < |left| && left[i].WriteDepth? ensures i == 0 && Elements(left[i].ids) !! Affect(g, todo[0]).depth.Keys {
      assert left[i] !in rest;
      assert todo[0].StampDepth? ==> left == [WriteDepth(order, todo[0].depth)] + rest;
    }
  }

  lemma {:induction false} ActSavesLast(g: Graph, owner: Job, todo: seq<Action>, order: seq<string>)
    requires todo != [] && !todo[0].Enqueue? && !todo[0].Raise? && Answers(g, todo[0], order)
    requires todo[0].StopIfFetched? ==> todo[0].actorId !in g.fetched
    requires Shape(Some(owner), todo) && SavesLast(g, owner, todo)
    ensures SavesLast(Affect(g, todo[0]), owner, Remaining(g, todo, order))
  {
    var rest, left := todo[1..], Remaining(g, todo, order);
    if owner.Actor? && rest != [] {
      assert rest[|rest| - 1] == todo[|todo| - 1];
      assert left[|left| - 1] == rest[|rest| - 1];
    }
  }

  lemma {:induction false} StepGraphDepths(env: Env, seeds: set<Job>, s: State, s': State, step: Step)
    requires Next(env, s, s', step) && !step.Scan? && !step.Crash? && Best(env, seeds, s) && Orderly(env, seeds, s)
    ensures WORKER in s'.pcs && GraphDepths(s', s'.pcs[WORKER])
  {
    StepCompletedDepths(env, seeds, s, s', step);
    StepFetchedHandled(env, seeds, s, s', step);
    StepWorkerSaves(env, seeds, s, s', step);
  }

  lemma {:induction false} StepSeeders(env: Env, s: State, s': State, step: Step)
    requires Next(env, s, s', step) && Solo(s) && SeedersEnqueue(s)
    ensures SeedersEnqueue(s')
  {
    hide Plan, IsFirst, Affect, Answers, MemberOf, Targets;
    forall c, i | c in s'.pcs && c != WORKER && 0 <= i < |TodoOf(s'.pcs[c])| ensures TodoOf(s'.pcs[c])[i].Enqueue? {
      var todo := TodoOf(s.pcs[c]);
      assert todo != [] ==> todo[0].Enqueue?;
      assert TodoOf(s'.pcs[c]) == todo || (todo != [] && TodoOf(s'.pcs[c]) == todo[1..]);
    }
  }

  lemma {:induction false} StepKeepsBest(env: Env, seeds: set<Job>, s: State, s': State, step: Step)
    requires Next(env, s, s', step) && !step.Scan? && !step.Crash? && Best(env, seeds, s) && Orderly(env, seeds, s)
    requires NoCollisions(env, seeds) && SeedJobs(seeds)
    ensures Best(env, seeds, s')
  {
    hide Next, Once, Inv, Sound, Frontier, Solo, WorkerCovers, SeedsCovered, CompletedReach, FailsOnRaise, GraphDepths, SeedersEnqueue, Covered, NoCollisions, SeedJobs, Targets;
    StepWorkerCovers(env, seeds, s, s', step);
    StepSeedsCovered(env, seeds, s, s', step);
    StepCompletedReach(env, seeds, s, s', step);
    StepFailsOnRaise(env, seeds, s, s', step);
    StepGraphDepths(env, seeds, s, s', step);
    StepSeeders(env, s, s', step);
    StepCovered(env, s, s', step);
  }

  // ---- whole crawls ----

  /** One idle worker, and seeding scripts that will enqueue exactly `seeds`. */
  ghost predicate SoloInitial(s: State, seeds: set<Job>) {
    && Initial(s, seeds)
    && WORKER in s.pcs && s.pcs[WORKER] == Idle
    && (forall c :: c in s.pcs && c != WORKER ==> s.pcs[c] != Idle)
    && (forall j :: j in seeds ==> exists c :: c in s.pcs && j in Targets(TodoOf(s.pcs[c])))
  }

  lemma {:induction false} InitialBest(env: Env, seeds: set<Job>, s: State)
    requires SoloInitial(s, seeds)
    ensures Solo(s) && Frontier(env, seeds, s) && Best(env, seeds, s)
  {
    InitialInv(env, s, seeds);
    assert Targets([]) == {};
    forall j | Waiting(s, j) ensures j in seeds {
      var c :| c in s.pcs && Offers(s.pcs[c], j);
      InitiallyKnown(s, seeds, c, j);
    }
  }

  lemma {:induction false} RunOrderly(env: Env, seeds: set<Job>, run: seq<State>, steps: seq<Step>, i: nat)
    requires IsRun(env, run, steps) && SoloInitial(run[0], seeds) && Undisturbed(run, steps) && i < |run|
    requires SeedJobs(seeds) && env.maxDepth <= DEEPEST_LIMIT && NoCollisions(env, seeds)
    ensures Orderly(env, seeds, run[i]) && Best(env, seeds, run[i])
  {
    hide Next, Once, Inv, Sound, Frontier, Solo, Best, NoCollisions, SeedJobs, Initial;
    RunOnce(env, run, steps, seeds, i);
    RunSound(env, seeds, run, steps, i);
    RunInv(env, run, steps, seeds, i);
    if i == 0 {
      InitialBest(env, seeds, run[0]);
    } else {
      RunOrderly(env, seeds, run, steps, i - 1);
      StepKeepsSolo(env, run[i - 1], run[i], steps[i - 1]);
      StepKeepsFrontier(env, seeds, run[i - 1], run[i], steps[i - 1]);
      StepKeepsBest(env, seeds, run[i - 1], run[i], steps[i - 1]);
    }
  }

  /** Over the whole run, jobs are popped level by level: by depth, then by type. */
  lemma {:induction false} LevelPhases(env: Env, seeds: set<Job>, run: seq<State>, steps: seq<Step>, i: nat, p: nat, q: nat)
    requires IsRun(env, run, steps) && SoloInitial(run[0], seeds) && Undisturbed(run, steps) && i < |run|
    requires SeedJobs(seeds) && env.maxDepth <= 99 && NoCollisions(env, seeds)
    requires p <= q < |run[i].popped|
    ensures LevelLe(run[i].popped[p], run[i].popped[q])
  {
    hide Next, Once, Inv, Sound, Solo, Best, NoCollisions, SeedJobs, Initial, InRange;
    RunOrderly(env, seeds, run, steps, i);
    var s := run[i];
    assert s.popped[p] in s.popped && s.popped[q] in s.popped;
    PoppedInRange(env, seeds, s, s.popped[p]);
    PoppedInRange(env, seeds, s, s.popped[q]);
    if p < q {
      SharpInOrder(env, s.popped[p], s.popped[q]);
    }
  }

  lemma {:induction false} PoppedInRange(env: Env, seeds: set<Job>, s: State, j: Job)
    requires SeedJobs(seeds) && Sound(env, seeds, s) && j in s.popped
    ensures InRange(env, j)
  {
    hide Sound, SeedJobs, InRange, Anywhere;
    LastIsAnywhere(s, j);
    AnywhereInRange(env, seeds, s, j);
  }

  /** Up to a limit of 99 the last stage holds one level only. */
  lemma {:induction false} SharpInOrder(env: Env, a: Job, b: Job)
    requires InOrder(a, b) && InRange(env, a) && InRange(env, b) && env.maxDepth <= 99
    ensures LevelLe(a, b)
  {
  }

  ghost predicate Handled(s: State, j: Job) {
    j in s.completed || j in s.store.failed
  }

  lemma {:induction false} QuietKeptIsHandled(s: State, j: Job)
    requires Quiet(s) && Kept(s, j)
    ensures Handled(s, j)
  {
    assert !Queued(s.store, j) && !InTransit(s.pcs, j);
  }

  lemma {:induction false} ChainIsHandled(env: Env, seeds: set<Job>, s: State, chain: seq<Job>)
    requires Orderly(env, seeds, s) && Best(env, seeds, s) && Quiet(s) && SeedingOver(s) && SeedJobs(seeds)
    requires IsChain(env, seeds, chain)
    ensures exists h :: Handled(s, h) && SameResource(h, chain[|chain| - 1]) && Depth(h) <= Depth(chain[|chain| - 1])
  {
    hide Once, Inv, Sound, Frontier, Successors, GraphDepths, FailsOnRaise, CompletedReach, Covered, WorkerCovers;
    var n := |chain|;
    var k := chain[n - 1];
    if n == 1 {
      QuietOffersNothing(env, seeds, s);
      assert Reached(s, k);
    } else {
      assert forall i :: 0 <= i < n - 1 ==> chain[..n - 1][i] == chain[i];
      ChainIsHandled(env, seeds, s, chain[..n - 1]);
      var p := chain[n - 2];
      var h :| Handled(s, h) && SameResource(h, p) && Depth(h) <= Depth(p);
      HandledReaches(env, seeds, s, p, h, k);
    }
    var j :| Kept(s, j) && SameResource(j, k) && Depth(j) <= Depth(k);
    QuietKeptIsHandled(s, j);
  }

  lemma {:induction false} HandledReaches(env: Env, seeds: set<Job>, s: State, p: Job, h: Job, k: Job)
    requires Orderly(env, seeds, s) && Best(env, seeds, s) && SeedJobs(seeds)
    requires Handled(s, h) && SameResource(h, p) && Depth(h) <= Depth(p) && k in Successors(env, p)
    ensures Reached(s, k)
  {
    assert Kept(s, h) && Anywhere(s, h);
    DiscoveredInRange(env, seeds, h);
    ShallowerDiscoversMore(env, p, h, k);
    var l :| l in Successors(env, h) && SameResource(l, k) && Depth(l) <= Depth(k);
    assert Reached(s, l);
    var j :| Kept(s, j) && SameResource(j, l) && Depth(j) <= Depth(l);
    assert Kept(s, j) && SameResource(j, k) && Depth(j) <= Depth(k);
  }

  /** Once the seeds are in, nothing queued and nothing leased leaves no handler running. */
  lemma {:induction false} QuietOffersNothing(env: Env, seeds: set<Job>, s: State)
    requires Orderly(env, seeds, s) && Quiet(s) && SeedingOver(s)
    ensures forall c :: c in s.pcs ==> Targets(TodoOf(s.pcs[c])) == {}
  {
    assert Targets([]) == {};
    var pc := s.pcs[WORKER];
    assert Carried(pc) == {};
  }

  // The three halves of breadth-first correctness.

  /** Every resource on the web within the gate has been handled. */
  ghost predicate HandlesAll(env: Env, seeds: set<Job>, s: State) {
    forall j :: Discovered(env, seeds, j) ==> exists h :: Handled(s, h) && SameResource(h, j)
  }

  /** Nothing else has. */
  ghost predicate HandlesOnly(env: Env, seeds: set<Job>, s: State) {
    forall h :: Handled(s, h) ==> Discovered(env, seeds, h)
  }

  /** No discovery chain leads to a handled resource in fewer hops. */
  ghost predicate HandlesAtMinimum(env: Env, seeds: set<Job>, s: State) {
    forall h, j :: Handled(s, h) && Discovered(env, seeds, j) && SameResource(h, j) ==> Depth(h) <= Depth(j)
  }

  /** A finished single-worker crawl is a breadth-first traversal: what it handled is
      exactly what the web lets it discover, each resource at its minimum depth,
      and a completed actor's depth property is that minimum. */
  lemma {:induction false} CrawlIsBreadthFirst(env: Env, seeds: set<Job>, run: seq<State>, steps: seq<Step>)
    requires IsRun(env, run, steps) && SoloInitial(run[0], seeds) && Undisturbed(run, steps)
    requires SeedJobs(seeds) && env.maxDepth <= DEEPEST_LIMIT && NoCollisions(env, seeds)
    requires Quiet(run[|steps|]) && SeedingOver(run[|steps|])
    ensures HandlesAll(env, seeds, run[|steps|])
    ensures HandlesOnly(env, seeds, run[|steps|])
    ensures HandlesAtMinimum(env, seeds, run[|steps|])
    ensures CompletedDepths(run[|steps|])
  {
    RunOrderly(env, seeds, run, steps, |steps|);
    Outcome(env, seeds, run[|steps|]);
  }

  ghost predicate Over(env: Env, seeds: set<Job>, s: State) {
    Orderly(env, seeds, s) && Best(env, seeds, s) && Quiet(s) && SeedingOver(s) && SeedJobs(seeds)
  }

  lemma {:induction false} Outcome(env: Env, seeds: set<Job>, s: State)
    requires Over(env, seeds, s)
    ensures HandlesAll(env, seeds, s) && HandlesOnly(env, seeds, s) && HandlesAtMinimum(env, seeds, s)
  {
    forall j | Discovered(env, seeds, j) ensures exists h :: Handled(s, h) && SameResource(h, j) {
      DiscoveredIsHandled(env, seeds, s, j);
    }
    forall h | Handled(s, h) ensures Discovered(env, seeds, h) {
      HandledIsDiscovered(env, seeds, s, h);
    }
    forall h, j | Handled(s, h) && Discovered(env, seeds, j) && SameResource(h, j) ensures Depth(h) <= Depth(j) {
      HandledAtMinimum(env, seeds, s, h, j);
    }
  }

  lemma {:induction false} HandledAtMinimum(env: Env, seeds: set<Job>, s: State, h: Job, j: Job)
    requires Over(env, seeds, s) && Handled(s, h) && Discovered(env, seeds, j) && SameResource(h, j)
    ensures Depth(h) <= Depth(j)
  {
    DiscoveredIsHandled(env, seeds, s, j);
    var g :| Handled(s, g) && SameResource(g, j) && Depth(g) <= Depth(j);
    HandledOnce(env, s, g, h);
  }

  lemma {:induction false} DiscoveredIsHandled(env: Env, seeds: set<Job>, s: State, j: Job)
    requires Over(env, seeds, s) && Discovered(env, seeds, j)
    ensures exists h :: Handled(s, h) && SameResource(h, j) && Depth(h) <= Depth(j)
  {
    var chain :| IsChain(env, seeds, chain) && chain[|chain| - 1] == j;
    ChainIsHandled(env, seeds, s, chain);
  }

  lemma {:induction false} HandledIsDiscovered(env: Env, seeds: set<Job>, s: State, h: Job)
    requires Sound(env, seeds, s) && Handled(s, h)
    ensures Discovered(env, seeds, h)
  {
    assert Kept(s, h) && Anywhere(s, h);
  }

  /** A resource is handled once. */
  lemma {:induction false} HandledOnce(env: Env, s: State, g: Job, h: Job)
    requires Once(env, s) && Handled(s, g) && Handled(s, h) && SameResource(g, h)
    ensures g == h
  {
    IdIdentifiesResource(g, h);
    var t := if g in s.completed then DidComplete(g) else DidFail(g);
    var u := if h in s.completed then DidComplete(h) else DidFail(h);
    assert Present(s, t) && Present(s, u) && JobOf(t) == g && JobOf(u) == h;
  }
}
