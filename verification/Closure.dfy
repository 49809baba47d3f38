/**
 When the crawl is quiet it is finished: with any number of workers and with
 leases reaped and jobs run twice, a state with nothing queued, nothing leased and
 no call half done has every seen job completed or failed, and everything a
 completed job discovers has been seen.
 */
module Closure {
  import opened Options
  import opened Jobs
  import opened Web
  import opened Protocol
  import opened Conservation
  import opened Todo

  /** Every job a coroutine knows of. */
  function Mentions(pc: Pc): set<Job> {
    match pc
    case Popped(j) => {j}
    case Working(owner, _) => OwnerSet(owner)
    case Admitting(owner, j, _) => OwnerSet(owner) + {j}
    case Failing(j) => {j}
    case Reaping(jobs) => set j | j in jobs
    case Unleased(j, rest) => {j} + set k | k in rest
    case Requeued(j, rest) => {j} + set k | k in rest
    case _ => {}
  }

  function OwnerSet(owner: Option<Job>): set<Job> {
    if owner.Some? then {owner.value} else {}
  }

  ghost predicate Seen(env: Env, s: State, j: Job) {
    Hash(env, j) in s.store.seen
  }

  ghost predicate AllSeen(env: Env, s: State, jobs: set<Job>) {
    forall j :: j in jobs ==> Seen(env, s, j)
  }

  /** Only seen jobs are anywhere. */
  ghost predicate Grounded(env: Env, s: State) {
    && (forall j :: Kept(s, j) ==> Seen(env, s, j))
    && (forall c :: c in s.pcs ==> AllSeen(env, s, Mentions(s.pcs[c])))
  }

  /** A `last_fetch_date` means that the actor and its collections have been seen. */
  ghost predicate FetchedKnown(env: Env, s: State) {
    forall j: Job :: j.Actor? && j.actorId in s.graph.fetched ==> Seen(env, s, j) && AllSeen(env, s, Successors(env, j))
  }

  /** The skip guard and the final write stand in the plan of their own actor, the write last. */
  predicate Shape(owner: Option<Job>, todo: seq<Action>) {
    forall i :: 0 <= i < |todo| ==>
      (todo[i].StopIfFetched? ==> owner.Some? && owner.value.Actor? && owner.value.actorId == todo[i].actorId) &&
      (todo[i].SaveActor? ==> owner == Some(Actor(todo[i].actorId, todo[i].depth)) && i == |todo| - 1)
  }

  /** What a running handler has not yet had marked seen is still on its list. */
  ghost predicate Covered(env: Env, s: State) {
    forall c :: c in s.pcs ==> CoveredAt(env, s, s.pcs[c])
  }

  ghost predicate CoveredAt(env: Env, s: State, pc: Pc) {
    Shape(OwnerOf(pc), TodoOf(pc)) &&
    (OwnerOf(pc).Some? ==> AllSeen(env, s, Successors(env, OwnerOf(pc).value) - Targets(TodoOf(pc))))
  }

  /** What a completed job discovers has been seen. */
  ghost predicate CompletedClosed(env: Env, s: State) {
    forall j :: j in s.completed ==> AllSeen(env, s, Successors(env, j))
  }

  ghost predicate Inv(env: Env, s: State) {
    Conserved(env, s) && Grounded(env, s) && FetchedKnown(env, s) && Covered(env, s) && CompletedClosed(env, s)
  }

  // ---- plans ----

  lemma {:induction false} PlanShape(env: Env, job: Job)
    ensures Shape(Some(job), Plan(env, job))
  {
  }

  lemma {:induction false} RemainingShape(g: Graph, owner: Option<Job>, todo: seq<Action>, order: seq<string>)
    requires todo != [] && Shape(owner, todo)
    ensures Shape(owner, Remaining(g, todo, order))
  {
    var rest := todo[1..];
    assert forall i :: 0 <= i < |rest| ==> rest[i] == todo[i + 1];
  }

  /** An actor's collections are the same resources whatever its depth. */
  lemma {:induction false} ActorSuccessorsAgree(env: Env, a: string, d: int, e: int, k: Job)
    requires k in Successors(env, Actor(a, e))
    ensures exists l :: l in Successors(env, Actor(a, d)) && Id(l) == Id(k)
  {
    assert k.Collection?;
    var l := Collection(k.collectionId, k.owner, k.direction, d);
    assert l in Successors(env, Actor(a, d)) && Id(l) == Id(k);
  }

  // ---- steps ----

  lemma {:induction false} StepGrounded(env: Env, s: State, s': State, step: Step)
    requires Next(env, s, s', step) && Inv(env, s)
    ensures Grounded(env, s')
  {
    assert s.store.seen <= s'.store.seen;
    var pc, pc' := s.pcs[step.c], s'.pcs[step.c];
    assert AllSeen(env, s, Mentions(pc));
    forall j | Kept(s', j) ensures Seen(env, s', j) {
      KeptBefore(env, s, s', step, j);
    }
    forall c | c in s'.pcs ensures AllSeen(env, s', Mentions(s'.pcs[c])) {
      if c != step.c {
        assert AllSeen(env, s, Mentions(s.pcs[c]));
      } else {
        StepMentions(env, s, s', step);
      }
    }
  }

  lemma {:induction false} StepMentions(env: Env, s: State, s': State, step: Step)
    requires Next(env, s, s', step) && Grounded(env, s)
    ensures step.c in s'.pcs && AllSeen(env, s', Mentions(s'.pcs[step.c]))
  {
    assert s.store.seen <= s'.store.seen;
    assert AllSeen(env, s, Mentions(s.pcs[step.c]));
    forall j | j in Mentions(s'.pcs[step.c]) ensures Seen(env, s', j) {
      if step.Pop? {
        assert Queued(s.store, step.m.job);
        assert Kept(s, step.m.job);
      } else if step.Scan? {
        assert Kept(s, j);
      } else {
        assert j in Mentions(s.pcs[step.c]) || (step.Admit? && Seen(env, s', j));
      }
    }
  }

  lemma {:induction false} QueuedBefore(env: Env, s: State, s': State, step: Step, j: Job)
    requires Next(env, s, s', step) && Queued(s'.store, j)
    ensures Queued(s.store, j) || (step.c in s.pcs && j in Mentions(s.pcs[step.c]))
  {
    hide Plan, Answers, Affect, Remaining;
    var m :| m in s'.store.queue && m.job == j;
    assert m in s.store.queue ==> Queued(s.store, j);
  }

  lemma {:induction false} TransitBefore(env: Env, s: State, s': State, step: Step, j: Job)
    requires Next(env, s, s', step) && InTransit(s'.pcs, j)
    ensures InTransit(s.pcs, j) || Queued(s.store, j) || (step.c in s.pcs && j in Mentions(s.pcs[step.c])) || Seen(env, s', j)
  {
    hide Next, Seen;
    var d :| d in s'.pcs && j in Carried(s'.pcs[d]);
    OnlyMoves(env, s, s', step);
    CarriedBefore(env, s, s', step, j);
    if d != step.c {
      assert d in s.pcs && s.pcs[d] == s'.pcs[d];
    }
  }

  /** What the coroutine that moved carries now. */
  lemma {:induction false} CarriedBefore(env: Env, s: State, s': State, step: Step, j: Job)
    requires Next(env, s, s', step) && step.c in s.pcs && step.c in s'.pcs
    ensures j in Carried(s'.pcs[step.c]) ==> Queued(s.store, j) || j in Mentions(s.pcs[step.c]) || Seen(env, s', j)
  {
    hide Plan, Answers, Affect, Remaining, Hash;
    assert step.Pop? ==> Queued(s.store, step.m.job);
  }

  /** A job found somewhere was there before, was mentioned, or has just been marked seen. */
  lemma {:induction false} KeptBefore(env: Env, s: State, s': State, step: Step, j: Job)
    requires Next(env, s, s', step) && Kept(s', j)
    ensures Kept(s, j) || (step.c in s.pcs && j in Mentions(s.pcs[step.c])) || Seen(env, s', j)
  {
    if Queued(s'.store, j) {
      QueuedBefore(env, s, s', step, j);
    } else if InTransit(s'.pcs, j) {
      TransitBefore(env, s, s', step, j);
    } else {
      hide Plan, Answers, Affect, Remaining, InTransit, Queued;
      assert j in s.store.inflight || j in s.store.failed || j in s.completed || j in Mentions(s.pcs[step.c]);
    }
  }

  lemma {:induction false} StepFetched(env: Env, s: State, s': State, step: Step)
    requires Next(env, s, s', step) && Inv(env, s)
    ensures FetchedKnown(env, s')
  {
    assert s.store.seen <= s'.store.seen;
    forall j: Job | j.Actor? && j.actorId in s'.graph.fetched
      ensures Seen(env, s', j) && AllSeen(env, s', Successors(env, j))
    {
      if j.actorId !in s.graph.fetched {
        var pc := s.pcs[step.c];
        var own := Actor(j.actorId, pc.todo[0].depth);
        assert pc.todo[0].SaveActor? && OwnerOf(pc) == Some(own) && |pc.todo| == 1;
        assert Id(own) == Id(j) && own in Mentions(pc);
        TargetsTail(pc.todo);
        assert Targets(pc.todo) == {};
        forall k | k in Successors(env, j) ensures Seen(env, s, k) {
          ActorSuccessorsAgree(env, j.actorId, own.depth, j.depth, k);
          var l :| l in Successors(env, own) && Id(l) == Id(k);
          assert Seen(env, s, l);
        }
      }
    }
  }

  lemma {:induction false} StepCovered(env: Env, s: State, s': State, step: Step)
    requires Next(env, s, s', step) && Inv(env, s)
    ensures Covered(env, s')
  {
    assert s.store.seen <= s'.store.seen;
    forall c | c in s'.pcs ensures CoveredAt(env, s', s'.pcs[c]) {
      assert c in s.pcs && CoveredAt(env, s, s.pcs[c]);
      if c == step.c {
        StepCoveredAt(env, s, s', step);
      }
    }
  }

  lemma {:induction false} StepCoveredAt(env: Env, s: State, s': State, step: Step)
    requires Next(env, s, s', step) && Inv(env, s)
    ensures step.c in s'.pcs && CoveredAt(env, s', s'.pcs[step.c])
  {
    hide Plan, Successors, Conserved, Grounded, FetchedKnown, CompletedClosed, Targets, Answers, Affect, Remaining;
    assert s.store.seen <= s'.store.seen;
    var pc := s.pcs[step.c];
    if step.Lease? {
      PlanShape(env, pc.job);
      PlanDiscoversSuccessors(env, pc.job);
    } else if step.Act? {
      RemainingShape(s.graph, pc.owner, pc.todo, step.order);
      ActCovers(env, s, step.c, step.order);
    } else if step.Admit? {
      TargetsTail(pc.todo);
      RemainingShape(s.graph, pc.owner, pc.todo, []);
      if pc.owner.Some? {
        forall k | k in Successors(env, pc.owner.value) - Targets(pc.todo[1..]) ensures Seen(env, s', k) {
          assert k in Targets(pc.todo) ==> k == pc.todo[0].job;
          assert k !in Targets(pc.todo) ==> k in Successors(env, pc.owner.value) - Targets(pc.todo);
        }
      }
    }
  }

  /** What a graph call lets a handler drop has been seen. */
  lemma {:induction false} ActCovers(env: Env, s: State, c: nat, order: seq<string>)
    requires Inv(env, s) && c in s.pcs && s.pcs[c].Working? && s.pcs[c].todo != [] && !s.pcs[c].todo[0].Enqueue?
    requires Answers(s.graph, s.pcs[c].todo[0], order)
    ensures s.pcs[c].owner.Some? ==>
              AllSeen(env, s, Successors(env, s.pcs[c].owner.value) - Targets(Remaining(s.graph, s.pcs[c].todo, order)))
  {
    var pc := s.pcs[c];
    var head := pc.todo[0];
    RemainingTargets(s.graph, pc.todo, order);
    if pc.owner.Some? {
      var own := pc.owner.value;
      forall k | k in Successors(env, own) && k !in Targets(Remaining(s.graph, pc.todo, order)) ensures Seen(env, s, k) {
        if k in Targets(pc.todo) {
          if head.StopIfFetched? && head.actorId in s.graph.fetched {
            assert own.Actor? && own.actorId in s.graph.fetched;
          }
        }
      }
    }
  }

  lemma {:induction false} StepKeepsInv(env: Env, s: State, s': State, step: Step)
    requires Next(env, s, s', step) && Inv(env, s)
    ensures Inv(env, s')
  {
    assert s.store.seen <= s'.store.seen;
    StepConserves(env, s, s', step);
    StepGrounded(env, s, s', step);
    StepFetched(env, s, s', step);
    StepCovered(env, s, s', step);
    if step.Complete? {
      var j := s.pcs[step.c].owner.value;
      assert CoveredAt(env, s, s.pcs[step.c]) && Targets([]) == {};
      assert Successors(env, j) - Targets([]) == Successors(env, j);
      forall k | k in s'.completed ensures AllSeen(env, s', Successors(env, k)) {
        assert k != j ==> AllSeen(env, s, Successors(env, k));
      }
    }
  }

  lemma {:induction false} InitialInv(env: Env, s: State, seeds: set<Job>)
    requires Initial(s, seeds)
    ensures Inv(env, s)
  {
    InitialConserved(env, s, seeds);
  }

  lemma {:induction false} RunInv(env: Env, run: seq<State>, steps: seq<Step>, seeds: set<Job>, i: nat)
    requires IsRun(env, run, steps) && Initial(run[0], seeds) && i < |run|
    ensures Inv(env, run[i])
  {
    if i == 0 {
      InitialInv(env, run[0], seeds);
    } else {
      RunInv(env, run, steps, seeds, i - 1);
      StepKeepsInv(env, run[i - 1], run[i], steps[i - 1]);
    }
  }

  // ---- quiescence ----

  /** No coroutine is between the commands of one call. */
  ghost predicate CallsDone(s: State) {
    forall c :: c in s.pcs ==> Carried(s.pcs[c]) == {} && !s.pcs[c].Requeued?
  }

  ghost predicate Quiet(s: State) {
    s.store.queue == {} && s.store.inflight == map[] && CallsDone(s)
  }

  ghost predicate Finished(env: Env, s: State, h: nat) {
    exists j :: (j in s.completed || j in s.store.failed) && Hash(env, j) == h
  }

  /** Quiet means finished: all seen jobs have ended, and the completed ones have
      had everything they discover taken in. */
  lemma {:induction false} QuietIsClosed(env: Env, run: seq<State>, steps: seq<Step>, seeds: set<Job>, i: nat)
    requires IsRun(env, run, steps) && Initial(run[0], seeds) && i < |run| && Quiet(run[i])
    ensures forall h :: h in run[i].store.seen ==> Finished(env, run[i], h)
    ensures forall j, k :: j in run[i].completed && k in Successors(env, j) ==> Finished(env, run[i], Hash(env, k))
  {
    RunInv(env, run, steps, seeds, i);
    var s := run[i];
    forall h | h in s.store.seen ensures Finished(env, s, h) {
      var j :| Kept(s, j) && Hash(env, j) == h;
      assert !Queued(s.store, j) && !InTransit(s.pcs, j);
    }
    forall j, k | j in s.completed && k in Successors(env, j) ensures Finished(env, s, Hash(env, k)) {
      assert Seen(env, s, k);
    }
  }
}
