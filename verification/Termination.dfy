/**
 Without reaping every crawl ends: if the web mentions finitely many ids, each
 step shrinks a measure, whatever the schedule and however the pages link.
 */
module Termination {
  import opened Options
  import opened Jobs
  import opened Codec
  import opened Web
  import opened Protocol
  import opened ExactlyOnce
  import opened Todo

  /** The hashes of everything the web mentions. */
  ghost predicate ClosedUniverse(env: Env, universe: set<nat>) {
    forall j, k :: Hash(env, j) in universe && k in Successors(env, j) ==> Hash(env, k) in universe
  }

  ghost predicate Bounded(env: Env, universe: set<nat>, s: State) {
    && s.store.seen <= universe
    && (forall c, k :: c in s.pcs && k in Targets(TodoOf(s.pcs[c])) ==> Hash(env, k) in universe)
  }

  lemma {:induction false} StepKeepsBounded(env: Env, universe: set<nat>, s: State, s': State, step: Step)
    requires Next(env, s, s', step) && Once(env, s) && !step.Scan?
    requires ClosedUniverse(env, universe) && Bounded(env, universe, s)
    ensures Bounded(env, universe, s')
  {
    hide Before, Plan, LeasesOwned, PoppedOnce, IsFirst, Targets, Successors, Answers, MemberOf;
    var pc := s.pcs[step.c];
    if step.Lease? {
      assert Present(s, InHand(step.c, pc.job));
      PlanDiscoversSuccessors(env, pc.job);
    } else if step.Act? {
      RemainingTargets(s.graph, pc.todo, step.order);
    } else if step.Admit? {
      TargetsTail(pc.todo);
    }
  }

  // ---- the measure ----

  function AdmittingHands(s: State): set<nat> { set c | c in s.pcs && s.pcs[c].Admitting? }
  function PoppedHands(s: State): set<nat> { set c | c in s.pcs && s.pcs[c].Popped? }
  function FailingHands(s: State): set<nat> { set c | c in s.pcs && s.pcs[c].Failing? }

  /** Moves the jobs can still make: an unseen hash has six ahead of it, a
      finished job none. */
  function Ahead(universe: set<nat>, s: State): nat {
    6 * |universe - s.store.seen| + 5 * |AdmittingHands(s)| + 4 * |s.store.queue| + 3 * |PoppedHands(s)| +
    2 * |s.store.inflight| + |FailingHands(s)|
  }

  /** Graph calls and enqueues a handler can still make on its own. */
  function Size(todo: seq<Action>): nat {
    if todo == [] then 0 else ActionSize(todo[0]) + Size(todo[1..])
  }

  function ActionSize(a: Action): nat {
    match a
    case StampDepth(_, _) => 2
    case QueueUnfetched(ids, _) => 1 + |ids|
    case _ => 1
  }

  function Chores(pc: Pc): nat {
    match pc
    case Idle => 1
    case Working(_, todo) => 1 + Size(todo)
    case _ => 0
  }

  function AllChores(pcs: map<nat, Pc>, n: nat): nat {
    if n == 0 then 0 else (if n - 1 in pcs then Chores(pcs[n - 1]) else 0) + AllChores(pcs, n - 1)
  }

  /** The step that moves a job between places, as opposed to a handler's own work. */
  ghost predicate Moves(env: Env, s: State, step: Step)
    requires step.c in s.pcs
  {
    Come(env, s, step).Some?
  }

  function Bit(b: bool): nat { if b then 1 else 0 }

  lemma {:induction false} InOrOut(before: set<nat>, after: set<nat>, c: nat)
    requires forall d :: d != c ==> (d in after <==> d in before)
    ensures |after| == |before| + Bit(c in after) - Bit(c in before)
  {
    assert after - {c} == before - {c};
    assert after == if c in after then (before - {c}) + {c} else before - {c};
    assert before == if c in before then (before - {c}) + {c} else before - {c};
  }

  /** What a step of coroutine `c` does to the counts of hands. */
  lemma {:induction false} HandCounts(s: State, s': State, c: nat)
    requires c in s.pcs && c in s'.pcs && s'.pcs == s.pcs[c := s'.pcs[c]]
    ensures |AdmittingHands(s')| == |AdmittingHands(s)| + Bit(s'.pcs[c].Admitting?) - Bit(s.pcs[c].Admitting?)
    ensures |PoppedHands(s')| == |PoppedHands(s)| + Bit(s'.pcs[c].Popped?) - Bit(s.pcs[c].Popped?)
    ensures |FailingHands(s')| == |FailingHands(s)| + Bit(s'.pcs[c].Failing?) - Bit(s.pcs[c].Failing?)
  {
    InOrOut(AdmittingHands(s), AdmittingHands(s'), c);
    InOrOut(PoppedHands(s), PoppedHands(s'), c);
    InOrOut(FailingHands(s), FailingHands(s'), c);
  }

  lemma {:induction false} TakeAhead(env: Env, universe: set<nat>, s: State, s': State, step: Step)
    requires Next(env, s, s', step) && Once(env, s) && (step.Pop? || step.Lease?)
    ensures Ahead(universe, s') < Ahead(universe, s)
  {
    hide AdmittingHands, PoppedHands, FailingHands, Before, Plan, LeasesHeld, LeasesOwned, PoppedOnce, Affect;
    HandCounts(s, s', step.c);
    if step.Lease? {
      var j := s.pcs[step.c].job;
      assert Present(s, InHand(step.c, j));
      assert j in s.store.inflight ==> Present(s, OnLease(j));
      assert s'.store.inflight.Keys == s.store.inflight.Keys + {j};
    }
  }

  lemma {:induction false} AdmitInUniverse(env: Env, universe: set<nat>, s: State, c: nat)
    requires Bounded(env, universe, s) && c in s.pcs && s.pcs[c].Working? && s.pcs[c].todo != [] && s.pcs[c].todo[0].Enqueue?
    ensures Hash(env, s.pcs[c].todo[0].job) in universe
  {
    TargetsTail(s.pcs[c].todo);
    assert s.pcs[c].todo[0].job in Targets(TodoOf(s.pcs[c]));
  }

  lemma {:induction false} AdmitAhead(env: Env, universe: set<nat>, s: State, s': State, step: Step)
    requires Next(env, s, s', step) && step.Admit? && Hash(env, s.pcs[step.c].todo[0].job) in universe
    ensures Moves(env, s, step) ==> Ahead(universe, s') < Ahead(universe, s)
    ensures !Moves(env, s, step) ==> Ahead(universe, s') == Ahead(universe, s)
  {
    hide AdmittingHands, PoppedHands, FailingHands, IsFirst, MemberOf;
    HandCounts(s, s', step.c);
    var pc := s.pcs[step.c];
    var h := Hash(env, pc.todo[0].job);
    if h !in s.store.seen {
      assert universe - s'.store.seen == (universe - s.store.seen) - {h};
    }
  }

  lemma {:induction false} PushAhead(env: Env, universe: set<nat>, s: State, s': State, step: Step)
    requires Next(env, s, s', step) && OneToken(env, s) && step.Push?
    ensures Ahead(universe, s') < Ahead(universe, s)
  {
    hide AdmittingHands, PoppedHands, FailingHands, Before, Plan, LeasesHeld, LeasesOwned, PoppedOnce;
    HandCounts(s, s', step.c);
    var pc := s.pcs[step.c];
    var m := MemberOf(pc.job, env.crc, step.ts);
    assert Present(s, InHand(step.c, pc.job));
    assert m in s.store.queue ==> Present(s, InQueue(m));
  }

  lemma {:induction false} ReleaseAhead(env: Env, universe: set<nat>, s: State, s': State, step: Step)
    requires Next(env, s, s', step) && Once(env, s) && (step.Complete? || step.Give? || step.Crash? || step.Record?)
    ensures Ahead(universe, s') < Ahead(universe, s)
  {
    hide AdmittingHands, PoppedHands, FailingHands, Plan, Remaining, IsFirst;
    HandCounts(s, s', step.c);
    if !step.Record? {
      assert s'.store.inflight.Keys == s.store.inflight.Keys - {s.pcs[step.c].owner.value};
    }
  }

  lemma {:induction false} StepAhead(env: Env, universe: set<nat>, s: State, s': State, step: Step)
    requires Next(env, s, s', step) && Once(env, s) && !step.Scan? && Bounded(env, universe, s)
    ensures Moves(env, s, step) ==> Ahead(universe, s') < Ahead(universe, s)
    ensures !Moves(env, s, step) ==> Ahead(universe, s') == Ahead(universe, s)
  {
    hide AdmittingHands, PoppedHands, FailingHands, Before, Plan, LeasesOwned, PoppedOnce;
    if step.Pop? || step.Lease? {
      TakeAhead(env, universe, s, s', step);
    } else if step.Admit? {
      AdmitInUniverse(env, universe, s, step.c);
      AdmitAhead(env, universe, s, s', step);
    } else if step.Push? {
      PushAhead(env, universe, s, s', step);
    } else if step.Complete? || step.Give? || step.Crash? || step.Record? {
      ReleaseAhead(env, universe, s, s', step);
    } else {
      HandCounts(s, s', step.c);
    }
  }

  lemma {:induction false} SizeJoin(p: seq<Action>, q: seq<Action>)
    ensures Size(p + q) == Size(p) + Size(q)
  {
    if p == [] {
      assert p + q == q;
    } else {
      SizeJoin(p[1..], q);
      assert (p + q)[1..] == p[1..] + q;
    }
  }

  lemma {:induction false} EnqueueActorsSize(order: seq<string>, depth: int)
    ensures Size(EnqueueActors(order, depth)) == |order|
  {
    if order != [] {
      EnqueueActorsSize(order[1..], depth);
      assert EnqueueActors(order, depth)[1..] == EnqueueActors(order[1..], depth);
    }
  }

  lemma {:induction false} ActShrinks(g: Graph, todo: seq<Action>, order: seq<string>)
    requires todo != [] && Answers(g, todo[0], order)
    ensures Size(Remaining(g, todo, order)) < Size(todo)
  {
    match todo[0]
    case StampDepth(_, d) =>
      SizeJoin([WriteDepth(order, d)], todo[1..]);
      assert Size([WriteDepth(order, d)]) == 1;
    case QueueUnfetched(ids, d) =>
      EnqueueActorsSize(order, d);
      SizeJoin(EnqueueActors(order, d), todo[1..]);
      ElementsCount(order);
      ElementsCount(ids);
      SubsetSize(Elements(order), Elements(ids));
    case _ =>
  }

  lemma {:induction false} ChoresUpdate(pcs: map<nat, Pc>, c: nat, pc: Pc, n: nat)
    requires c in pcs
    ensures AllChores(pcs[c := pc], n) == AllChores(pcs, n) + (if c < n then Chores(pc) - Chores(pcs[c]) else 0)
  {
    if n > 0 {
      ChoresUpdate(pcs, c, pc, n - 1);
    }
  }

  /** Every step of every schedule shrinks (moves ahead, chores left), in that order
      of importance; `n` is above every coroutine's number. */
  lemma {:induction false} StepShrinks(env: Env, universe: set<nat>, s: State, s': State, step: Step, n: nat)
    requires Next(env, s, s', step) && Once(env, s) && !step.Scan? && Bounded(env, universe, s)
    requires forall c :: c in s.pcs ==> c < n
    ensures Ahead(universe, s') < Ahead(universe, s) ||
            (Ahead(universe, s') == Ahead(universe, s) && AllChores(s'.pcs, n) < AllChores(s.pcs, n))
  {
    StepAhead(env, universe, s, s', step);
    if !Moves(env, s, step) {
      ChoreShrinks(env, s, s', step);
      ChoresUpdate(s.pcs, step.c, s'.pcs[step.c], n);
      assert s'.pcs == s.pcs[step.c := s'.pcs[step.c]];
    }
  }

  lemma {:induction false} ChoreShrinks(env: Env, s: State, s': State, step: Step)
    requires Next(env, s, s', step) && LeasesHeld(s) && !step.Scan? && !Moves(env, s, step)
    ensures Chores(s'.pcs[step.c]) < Chores(s.pcs[step.c])
    ensures s'.pcs == s.pcs[step.c := s'.pcs[step.c]]
  {
    if step.Act? {
      ActShrinks(s.graph, s.pcs[step.c].todo, step.order);
    }
  }

  /** How many steps of a run move a job. */
  ghost function MoveCount(env: Env, run: seq<State>, steps: seq<Step>, k: nat): nat
    requires IsRun(env, run, steps) && k <= |steps|
  {
    if k == 0 then 0
    else
      assert Next(env, run[k - 1], run[k], steps[k - 1]);
      MoveCount(env, run, steps, k - 1) + (if Moves(env, run[k - 1], steps[k - 1]) then 1 else 0)
  }

  lemma {:induction false} RunBounded(env: Env, universe: set<nat>, run: seq<State>, steps: seq<Step>, seeds: set<Job>, k: nat)
    requires IsRun(env, run, steps) && Initial(run[0], seeds) && NoReaping(steps) && k <= |steps|
    requires ClosedUniverse(env, universe) && forall j :: j in seeds ==> Hash(env, j) in universe
    ensures Bounded(env, universe, run[k])
    ensures MoveCount(env, run, steps, k) + Ahead(universe, run[k]) <= 6 * |universe|
  {
    hide Next, Once, Bounded, ClosedUniverse, Ahead;
    if k == 0 {
      InitialBounded(env, universe, run[0], seeds);
    } else {
      RunBounded(env, universe, run, steps, seeds, k - 1);
      RunOnce(env, run, steps, seeds, k - 1);
      StepKeepsBounded(env, universe, run[k - 1], run[k], steps[k - 1]);
      StepAhead(env, universe, run[k - 1], run[k], steps[k - 1]);
    }
  }

  lemma {:induction false} InitialBounded(env: Env, universe: set<nat>, s: State, seeds: set<Job>)
    requires Initial(s, seeds) && forall j :: j in seeds ==> Hash(env, j) in universe
    ensures Bounded(env, universe, s) && Ahead(universe, s) == 6 * |universe|
  {
    hide Hash;
    assert universe - s.store.seen == universe;
    assert AdmittingHands(s) == {} && PoppedHands(s) == {} && FailingHands(s) == {};
  }

  lemma {:induction false} DistinctHashes(env: Env, jobs: seq<Job>, hashes: set<nat>)
    requires forall i, k :: 0 <= i < k < |jobs| ==> Hash(env, jobs[i]) != Hash(env, jobs[k])
    requires forall i :: 0 <= i < |jobs| ==> Hash(env, jobs[i]) in hashes
    ensures |jobs| <= |hashes|
  {
    if jobs != [] {
      DistinctHashes(env, jobs[1..], hashes - {Hash(env, jobs[0])});
    }
  }

  /** No run without reaping pops more jobs than the web has ids. */
  lemma {:induction false} PopsBounded(env: Env, universe: set<nat>, run: seq<State>, steps: seq<Step>, seeds: set<Job>, k: nat)
    requires IsRun(env, run, steps) && Initial(run[0], seeds) && NoReaping(steps) && k <= |steps|
    requires ClosedUniverse(env, universe) && forall j :: j in seeds ==> Hash(env, j) in universe
    ensures |run[k].popped| <= |universe|
  {
    RunBounded(env, universe, run, steps, seeds, k);
    RunOnce(env, run, steps, seeds, k);
    var s := run[k];
    forall i | 0 <= i < |s.popped| ensures Hash(env, s.popped[i]) in universe {
      assert s.popped[i] in s.popped;
      var t :| Taken(s, t) && JobOf(t) == s.popped[i];
      assert Present(s, t);
    }
    DistinctHashes(env, s.popped, universe);
  }
}
