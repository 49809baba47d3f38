/**
 No job is ever lost: at every Redis command of every interleaving, with the
 reaper running and duplicates about, each hash in SEEN_HASHED still has a job
 that is queued, leased, failed, completed, or in the hands of a coroutine that
 is between two commands.
 */
module Conservation {
  import opened Jobs
  import opened Codec
  import opened Web
  import opened Protocol

  /** The job a coroutine is carrying from one structure to another. */
  function Carried(pc: Pc): set<Job> {
    match pc
    case Popped(j) => {j}
    case Admitting(_, j, _) => {j}
    case Failing(j) => {j}
    case Unleased(j, _) => {j}
    case _ => {}
  }

  ghost predicate InTransit(pcs: map<nat, Pc>, j: Job) {
    exists c :: c in pcs && j in Carried(pcs[c])
  }

  ghost predicate Queued(r: Store, j: Job) {
    exists m :: m in r.queue && m.job == j
  }

  /** The job is somewhere. */
  ghost predicate Kept(s: State, j: Job) {
    Queued(s.store, j) || j in s.store.inflight || j in s.store.failed || j in s.completed || InTransit(s.pcs, j)
  }

  ghost predicate Conserved(env: Env, s: State) {
    && (forall h :: h in s.store.seen ==> exists j :: Kept(s, j) && Hash(env, j) == h)
    && (forall c :: c in s.pcs && s.pcs[c].Requeued? ==> Kept(s, s.pcs[c].job))
  }

  lemma {:induction false} TransitKept(pcs: map<nat, Pc>, c: nat, pc: Pc, j: Job)
    requires c in pcs && InTransit(pcs, j) && (j in Carried(pcs[c]) ==> j in Carried(pc))
    ensures InTransit(pcs[c := pc], j)
  {
    var d :| d in pcs && j in Carried(pcs[d]);
    assert j in Carried(pcs[c := pc][d]);
  }

  lemma {:induction false} NowInTransit(pcs: map<nat, Pc>, c: nat, pc: Pc, j: Job)
    requires j in Carried(pc)
    ensures InTransit(pcs[c := pc], j)
  {
    assert j in Carried(pcs[c := pc][c]);
  }

  /** What is somewhere stays somewhere. */
  lemma {:induction false} StepKeeps(env: Env, s: State, s': State, step: Step, j: Job)
    requires Next(env, s, s', step) && Kept(s, j)
    ensures Kept(s', j)
  {
    var c, pc, pc' := step.c, s.pcs[step.c], s'.pcs[step.c];
    if Queued(s.store, j) {
      var m :| m in s.store.queue && m.job == j;
      if m in s'.store.queue {
        assert Queued(s'.store, j);
      } else {
        NowInTransit(s.pcs, c, pc', j);
      }
    } else if j in s.store.inflight {
      if j !in s'.store.inflight && j !in s'.completed {
        NowInTransit(s.pcs, c, pc', j);
      }
    } else if InTransit(s.pcs, j) {
      if j !in Carried(pc) || j in Carried(pc') {
        TransitKept(s.pcs, c, pc', j);
      } else if step.Push? || step.PushAgain? {
        var m := MemberOf(j, env.crc, step.ts);
        assert m in s'.store.queue && m.job == j;
      }
    }
  }

  lemma {:induction false} StepConserves(env: Env, s: State, s': State, step: Step)
    requires Next(env, s, s', step) && Conserved(env, s)
    ensures Conserved(env, s')
  {
    forall h | h in s'.store.seen ensures exists j :: Kept(s', j) && Hash(env, j) == h {
      if h in s.store.seen {
        var j :| Kept(s, j) && Hash(env, j) == h;
        StepKeeps(env, s, s', step, j);
      } else if step.Admit? {
        NowInTransit(s.pcs, step.c, s'.pcs[step.c], s'.pcs[step.c].job);
        assert Kept(s', s'.pcs[step.c].job);
      } else {
        assert step.MarkSeen?;
        StepKeeps(env, s, s', step, s.pcs[step.c].job);
        assert Hash(env, s.pcs[step.c].job) == h;
      }
    }
    forall c | c in s'.pcs && s'.pcs[c].Requeued? ensures Kept(s', s'.pcs[c].job) {
      if c == step.c {
        var m := MemberOf(s'.pcs[c].job, env.crc, step.ts);
        assert m in s'.store.queue;
      } else {
        StepKeeps(env, s, s', step, s.pcs[c].job);
      }
    }
  }

  /** Conservation over whole runs, from any conserved state. No assumption on the
      hash, on leases or on what the handlers discover. */
  lemma {:induction false} RunConserves(env: Env, run: seq<State>, steps: seq<Step>, i: nat)
    requires IsRun(env, run, steps) && Conserved(env, run[0]) && i < |run|
    ensures Conserved(env, run[i])
  {
    if i > 0 {
      RunConserves(env, run, steps, i - 1);
      StepConserves(env, run[i - 1], run[i], steps[i - 1]);
    }
  }

  /** Nothing is lost over a run: a job that is somewhere at one point is
      somewhere at every later point. */
  lemma {:induction false} RunKeeps(env: Env, run: seq<State>, steps: seq<Step>, i: nat, k: nat, j: Job)
    requires IsRun(env, run, steps) && i <= k < |run| && Kept(run[i], j)
    ensures Kept(run[k], j)
    decreases k
  {
    if i < k {
      RunKeeps(env, run, steps, i, k - 1, j);
      StepKeeps(env, run[k - 1], run[k], steps[k - 1], j);
    }
  }

  lemma {:induction false} InitialConserved(env: Env, s: State, seeds: set<Job>)
    requires Initial(s, seeds)
    ensures Conserved(env, s)
  {
  }
}
