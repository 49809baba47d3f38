/**
 Leases (pub_crawler/dispatcher.py, pub_crawler/crawler.py): a job is safe with its
 holder for MAX_INFLIGHT, and back in the queue by twice that when the holder is gone.
 */
module Leases {
  import opened Options
  import opened Jobs
  import opened Codec
  import opened Web
  import opened Protocol
  import opened Clocks
  import opened Conservation
  import opened ExactlyOnce
  import opened Todo

  /** Step `i` leases `j`. */
  ghost predicate TakesLease(run: seq<State>, steps: seq<Step>, i: nat, j: Job)
    requires |run| == |steps| + 1 && i < |steps|
  {
    steps[i].Lease? && steps[i].c in run[i].pcs && run[i].pcs[steps[i].c] == Popped(j)
  }

  /** Step `i` leases `j` at time `t`. */
  ghost predicate LeasedAt(run: seq<State>, steps: seq<Step>, i: nat, j: Job, t: int)
    requires |run| == |steps| + 1 && i < |steps|
  {
    TakesLease(run, steps, i, j) && steps[i].now == t
  }

  /** The last step before `k` to lease `j` is step `i`, at time `t`. */
  ghost predicate LastLease(run: seq<State>, steps: seq<Step>, i: nat, k: nat, j: Job, t: int)
    requires |run| == |steps| + 1 && i < k < |run|
  {
    LeasedAt(run, steps, i, j, t) && forall q :: i < q < k ==> !TakesLease(run, steps, q, j)
  }

  /** When a lease was taken, by its expiry. */
  function Since(s: State, j: Job): int
    requires j in s.store.inflight
  {
    s.store.inflight[j] - MAX_INFLIGHT
  }

  /** A lease tells when it was last taken. */
  lemma {:induction false} EveryLeaseHasATime(env: Env, run: seq<State>, steps: seq<Step>, k: nat, j: Job)
    requires IsRun(env, run, steps) && k < |run| && run[0].store.inflight == map[]
    requires j in run[k].store.inflight
    ensures exists i :: 0 <= i < k && LastLease(run, steps, i, k, j, Since(run[k], j))
  {
    hide Next;
    if k > 0 {
      var t := Since(run[k], j);
      LeaseStep(env, run, steps, k - 1, j);
      if LeasedAt(run, steps, k - 1, j, t) {
        assert LastLease(run, steps, k - 1, k, j, t);
      } else {
        EveryLeaseHasATime(env, run, steps, k - 1, j);
        var i :| 0 <= i < k - 1 && LastLease(run, steps, i, k - 1, j, t);
        assert LastLease(run, steps, i, k, j, t);
      }
    }
  }

  /** A leased job was leased by the last step, or is leased as before. */
  lemma {:induction false} LeaseStep(env: Env, run: seq<State>, steps: seq<Step>, q: nat, j: Job)
    requires IsRun(env, run, steps) && q < |steps| && j in run[q + 1].store.inflight
    ensures LeasedAt(run, steps, q, j, Since(run[q + 1], j)) ||
            (!TakesLease(run, steps, q, j) && j in run[q].store.inflight && Since(run[q], j) == Since(run[q + 1], j))
  {
    hide Plan, Answers, Affect, Remaining, IsFirst;
    assert Next(env, run[q], run[q + 1], steps[q]);
  }

  /** A job a reap pass takes has not been leased for more than MAX_INFLIGHT, however
      often it was leased before. */
  lemma {:induction false} NeverReapedEarly(env: Env, run: seq<State>, steps: seq<Step>, k: nat, j: Job)
    requires IsRun(env, run, steps) && run[0].store.inflight == map[]
    requires k < |steps| && steps[k].Scan? && j in steps[k].jobs
    ensures exists i, t :: 0 <= i < k && LastLease(run, steps, i, k, j, t) && t + MAX_INFLIGHT < steps[k].now
  {
    hide Plan, Answers, Affect, Remaining, IsFirst, LastLease;
    assert Next(env, run[k], run[k + 1], steps[k]);
    EveryLeaseHasATime(env, run, steps, k, j);
  }

  /** At step `b` the job was leased last more than MAX_INFLIGHT before the time of the pass. */
  ghost predicate Overdue(run: seq<State>, steps: seq<Step>, b: nat, j: Job)
    requires |run| == |steps| + 1 && b < |steps| && steps[b].Scan?
  {
    exists i, t :: 0 <= i < b && LastLease(run, steps, i, b, j, t) && t + MAX_INFLIGHT < steps[b].now
  }

  /** A pass lists exactly the overdue leases. */
  lemma {:induction false} ScanIsExact(env: Env, run: seq<State>, steps: seq<Step>, b: nat)
    requires IsRun(env, run, steps) && run[0].store.inflight == map[] && b < |steps| && steps[b].Scan?
    ensures forall j :: j in steps[b].jobs <==> j in run[b].store.inflight && Overdue(run, steps, b, j)
  {
    hide Plan, Answers, Affect, Remaining, IsFirst, LastLease;
    assert Next(env, run[b], run[b + 1], steps[b]);
    forall j | j in run[b].store.inflight ensures j in steps[b].jobs <==> Overdue(run, steps, b, j) {
      EveryLeaseHasATime(env, run, steps, b, j);
      var i :| 0 <= i < b && LastLease(run, steps, i, b, j, Since(run[b], j));
      forall k, t | 0 <= k < b && LastLease(run, steps, k, b, j, t) ensures t == Since(run[b], j) {
        OneLastLease(run, steps, i, k, b, j, Since(run[b], j), t);
      }
    }
  }

  lemma {:induction false} OneLastLease(run: seq<State>, steps: seq<Step>, i: nat, k: nat, b: nat, j: Job, t: int, u: int)
    requires |run| == |steps| + 1 && i < b < |run| && k < b
    requires LastLease(run, steps, i, b, j, t) && LastLease(run, steps, k, b, j, u)
    ensures t == u
  {
  }

  // ---- by the clock ----

  /** A job in hand was popped by the coroutine that has it, which has taken no step since. */
  lemma {:induction false} InHandWasPopped(env: Env, run: seq<State>, steps: seq<Step>, seeds: set<Job>, k: nat, c: nat, j: Job)
    requires IsRun(env, run, steps) && Initial(run[0], seeds) && k < |run|
    requires c in run[k].pcs && run[k].pcs[c] == Popped(j)
    ensures exists p :: 0 <= p < k && steps[p].Pop? && steps[p].c == c && steps[p].m.job == j
  {
    if k > 0 {
      assert Next(env, run[k - 1], run[k], steps[k - 1]);
      if steps[k - 1].c == c {
        assert steps[k - 1].Pop?;
      } else {
        OnlyMoves(env, run[k - 1], run[k], steps[k - 1]);
        InHandWasPopped(env, run, steps, seeds, k - 1, c, j);
      }
    }
  }

  /** Step `i`, which leases the job last, is by the coroutine that popped it in step `p`. */
  ghost predicate PoppedForLease(run: seq<State>, steps: seq<Step>, p: nat, i: nat, b: nat, j: Job)
    requires |run| == |steps| + 1 && b < |steps|
  {
    p < i < b && steps[p].Pop? && steps[p].m.job == j && steps[p].c == steps[i].c &&
    steps[i].Lease? && LastLease(run, steps, i, b, j, steps[i].now)
  }

  /** However long coroutines are held up between reading the clock and writing what they
      read: when a pass takes a job, more than 15 minutes have gone by since the worker
      that leased it last popped it. */
  lemma {:induction false} NeverReapedEarlyByTheClock(env: Env, iso: int -> string, run: seq<State>, steps: seq<Step>, seeds: set<Job>,
                                          times: seq<int>, now: int, b: nat, j: Job)
    requires IsRun(env, run, steps) && Initial(run[0], seeds) && Clocked(iso, steps, times, now)
    requires b < |steps| && steps[b].Scan? && j in steps[b].jobs
    ensures exists p: nat, i: nat :: PoppedForLease(run, steps, p, i, b, j) && times[p] + 15 * 60 * 1000 < times[b]
  {
    hide Next;
    NeverReapedEarly(env, run, steps, b, j);
    var i, t :| 0 <= i < b && LastLease(run, steps, i, b, j, t) && t + MAX_INFLIGHT < steps[b].now;
    InHandWasPopped(env, run, steps, seeds, i, steps[i].c, j);
    var p :| 0 <= p < i && steps[p].Pop? && steps[p].c == steps[i].c && steps[p].m.job == j;
    assert OnTime(iso, steps[..i], times[..i], steps[i], times[i]) && OnTime(iso, steps[..b], times[..b], steps[b], times[b]);
    assert steps[..i][p].c == steps[i].c && times[..i][p] <= t;
    assert PoppedForLease(run, steps, p, i, b, j);
  }

  // ---- recovery ----

  function Pending(pc: Pc): set<Job> {
    match pc
    case Reaping(jobs) => set j | j in jobs
    case Unleased(j, rest) => {j} + set k | k in rest
    case Requeued(_, rest) => set k | k in rest
    case _ => {}
  }

  /** A holder's step on the lease of `j`: taking it anew or letting it go. */
  ghost predicate Touches(s: State, step: Step, j: Job) {
    step.c in s.pcs &&
    ((step.Lease? && s.pcs[step.c] == Popped(j)) ||
     ((step.Complete? || step.Give? || step.Crash?) && OwnerOf(s.pcs[step.c]) == Some(j)))
  }

  /** From step `p` on nobody but the reaper `r` touches the lease of `j`. */
  ghost predicate Abandoned(run: seq<State>, steps: seq<Step>, p: nat, j: Job, r: nat)
    requires |run| == |steps| + 1
  {
    && (forall q :: p <= q < |steps| ==> !Touches(run[q], steps[q], j))
    && (forall q, c :: p <= q < |run| && c in run[q].pcs && c != r ==> !Reaper(run[q].pcs[c]) && run[q].pcs[c] != Sleeping)
  }

  /** No pass of `r` in steps `p` to `k` runs after time `limit`. */
  ghost predicate NoPassAfter(steps: seq<Step>, p: nat, k: nat, r: nat, limit: int)
    requires k <= |steps|
  {
    forall q :: p <= q < k && steps[q].Scan? && steps[q].c == r ==> steps[q].now <= limit
  }

  /** `j` is leased since `t` and the reaper is not about to drop that lease. */
  ghost predicate Held(s: State, j: Job, r: nat, t: int) {
    && j in s.store.inflight && s.store.inflight[j] == t + MAX_INFLIGHT
    && r in s.pcs && j !in Pending(s.pcs[r])
  }

  lemma {:induction false} OthersLeaveALease(env: Env, s: State, s': State, step: Step, j: Job, r: nat, t: int)
    requires Next(env, s, s', step) && !Touches(s, step, j) && Held(s, j, r, t)
    requires step.c != r && !Reaper(s.pcs[step.c])
    ensures Held(s', j, r, t)
  {
  }

  lemma {:induction false} PassesLeaveALease(env: Env, s: State, s': State, step: Step, j: Job, r: nat, t: int)
    requires Next(env, s, s', step) && !Touches(s, step, j) && Held(s, j, r, t)
    requires step.c == r && (step.Scan? ==> step.now <= t + MAX_INFLIGHT)
    ensures Held(s', j, r, t)
  {
    if step.DropLease? {
      assert s.pcs[r].jobs[0] in s.pcs[r].jobs;
      assert s'.store.inflight == s.store.inflight - {s.pcs[r].jobs[0]};
    }
  }

  /** Until a pass runs after the deadline, an abandoned lease stays as it is. */
  lemma {:induction false} AbandonedLeaseStays(env: Env, run: seq<State>, steps: seq<Step>, p: nat, k: nat, j: Job, r: nat, t: int)
    requires IsRun(env, run, steps) && p <= k < |run| && Abandoned(run, steps, p, j, r)
    requires Held(run[p], j, r, t)
    requires NoPassAfter(steps, p, k, r, t + MAX_INFLIGHT)
    ensures Held(run[k], j, r, t)
    decreases k
  {
    hide Next, Touches;
    if p < k {
      AbandonedLeaseStays(env, run, steps, p, k - 1, j, r, t);
      var s, s', step := run[k - 1], run[k], steps[k - 1];
      assert Next(env, s, s', step) && !Touches(s, step, j);
      if step.c == r {
        PassesLeaveALease(env, s, s', step, j, r, t);
      } else {
        OnlyMoves(env, s, s', step);
        OthersLeaveALease(env, s, s', step, j, r, t);
      }
    }
  }

  /** `j` is in the queue in some state after `b` and no later than `e`. */
  ghost predicate QueuedBetween(run: seq<State>, b: nat, e: nat, j: Job) {
    exists x :: b < x <= e && x < |run| && Queued(run[x].store, j)
  }

  lemma {:induction false} PassStepQueuesOrHolds(env: Env, s: State, s': State, step: Step, j: Job, r: nat)
    requires Next(env, s, s', step) && step != Rest(r)
    requires r in s.pcs && j in Pending(s.pcs[r])
    ensures Queued(s'.store, j) || (r in s'.pcs && j in Pending(s'.pcs[r]))
  {
    if step.PushAgain? && step.c == r && s.pcs[r].job == j {
      var m := MemberOf(j, env.crc, step.ts);
      assert m in s'.store.queue && m.job == j;
    }
  }

  /** A pass that lists a job queues it before it rests. */
  lemma {:induction false} PassQueuesOrHolds(env: Env, run: seq<State>, steps: seq<Step>, b: nat, k: nat, j: Job, r: nat)
    requires IsRun(env, run, steps) && b < k < |run| && steps[b].Scan? && steps[b].c == r && j in steps[b].jobs
    requires forall q :: b <= q < k ==> steps[q] != Rest(r)
    ensures QueuedBetween(run, b, k, j) || (r in run[k].pcs && j in Pending(run[k].pcs[r]))
    decreases k
  {
    assert Next(env, run[k - 1], run[k], steps[k - 1]);
    if k > b + 1 {
      PassQueuesOrHolds(env, run, steps, b, k - 1, j, r);
      if !QueuedBetween(run, b, k - 1, j) {
        PassStepQueuesOrHolds(env, run[k - 1], run[k], steps[k - 1], j, r);
      }
    }
  }

  lemma {:induction false} PassRequeues(env: Env, run: seq<State>, steps: seq<Step>, b: nat, e: nat, j: Job, r: nat)
    requires IsRun(env, run, steps) && b < e < |steps| && steps[b].Scan? && steps[b].c == r && j in steps[b].jobs
    requires steps[e] == Rest(r) && forall q :: b <= q < e ==> steps[q] != Rest(r)
    ensures QueuedBetween(run, b, e, j)
  {
    PassQueuesOrHolds(env, run, steps, b, e, j, r);
    assert Next(env, run[e], run[e + 1], steps[e]);
  }

  /** Passes MAX_INFLIGHT apart: one of them falls in the second lease length after `t`. */
  function FirstPassAfter(first: int, t: int): (n: nat)
    requires first <= t + 2 * MAX_INFLIGHT
    ensures t + MAX_INFLIGHT < first + n * MAX_INFLIGHT <= t + 2 * MAX_INFLIGHT
    ensures forall i: nat :: i < n ==> first + i * MAX_INFLIGHT <= t + MAX_INFLIGHT
  {
    if t + MAX_INFLIGHT < first then 0 else (t + MAX_INFLIGHT - first) / MAX_INFLIGHT + 1
  }

  /** The passes of reaper `r`: pass `n` scans at step `begins[n]`, at time
      `first + n * MAX_INFLIGHT`, and rests at step `ends[n]`; there are no others. */
  ghost predicate Passes(steps: seq<Step>, r: nat, first: int, begins: seq<nat>, ends: seq<nat>) {
    && |begins| == |ends|
    && (forall n :: 0 <= n < |begins| ==>
          && begins[n] < ends[n] < |steps|
          && steps[begins[n]].Scan? && steps[begins[n]].c == r && steps[begins[n]].now == first + n * MAX_INFLIGHT
          && steps[ends[n]] == Rest(r) && (forall q :: begins[n] <= q < ends[n] ==> steps[q] != Rest(r)))
    && (forall q :: 0 <= q < |steps| && steps[q].Scan? && steps[q].c == r ==> q in begins)
    && (forall m, n :: 0 <= m < n < |begins| ==> begins[m] < begins[n])
  }

  /** A job leased at `t` whose holder stops is listed by the first pass that runs
      after `t + MAX_INFLIGHT`. */
  lemma {:induction false} AbandonedLeaseIsListed(env: Env, run: seq<State>, steps: seq<Step>, p: nat, b: nat, j: Job, r: nat, t: int)
    requires IsRun(env, run, steps) && p < b < |steps| && LeasedAt(run, steps, p, j, t)
    requires r in run[p].pcs && run[p].pcs[r] == Sleeping && Abandoned(run, steps, p + 1, j, r)
    requires steps[b].Scan? && steps[b].c == r && t + MAX_INFLIGHT < steps[b].now
    requires NoPassAfter(steps, p + 1, b, r, t + MAX_INFLIGHT)
    ensures j in steps[b].jobs
  {
    hide Plan, Next, Abandoned, LeasedAt, NoPassAfter;
    LeaseIsHeld(env, run, steps, p, j, r, t);
    AbandonedLeaseStays(env, run, steps, p + 1, b, j, r, t);
    ScanLists(env, run[b], run[b + 1], steps[b], j, r, t);
  }

  lemma {:induction false} ScanLists(env: Env, s: State, s': State, step: Step, j: Job, r: nat, t: int)
    requires Next(env, s, s', step) && step.Scan? && Held(s, j, r, t) && t + MAX_INFLIGHT < step.now
    ensures j in step.jobs
  {
    hide Plan, Answers, Affect, Remaining, IsFirst;
  }

  /** ... and so it is back in the queue by a pass that runs after `t + MAX_INFLIGHT`
      and no later than `t + 2 * MAX_INFLIGHT`. */
  lemma {:induction false} LeaseRecovered(env: Env, run: seq<State>, steps: seq<Step>, p: nat, j: Job, r: nat, t: int,
                       first: int, begins: seq<nat>, ends: seq<nat>)
    requires IsRun(env, run, steps) && p < |steps| && LeasedAt(run, steps, p, j, t)
    requires r in run[p].pcs && run[p].pcs[r] == Sleeping && Abandoned(run, steps, p + 1, j, r)
    requires Passes(steps, r, first, begins, ends) && first <= t + 2 * MAX_INFLIGHT
    requires FirstPassAfter(first, t) < |begins|
    requires p < begins[FirstPassAfter(first, t)]
    ensures var n := FirstPassAfter(first, t);
            && t + MAX_INFLIGHT < steps[begins[n]].now <= t + 2 * MAX_INFLIGHT
            && QueuedBetween(run, begins[n], ends[n], j)
  {
    var n := FirstPassAfter(first, t);
    EarlierPassesAreEarly(steps, p + 1, r, first, begins, ends, n, t + MAX_INFLIGHT);
    AbandonedLeaseIsListed(env, run, steps, p, begins[n], j, r, t);
    PassRequeues(env, run, steps, begins[n], ends[n], j, r);
  }

  lemma {:induction false} LeaseIsHeld(env: Env, run: seq<State>, steps: seq<Step>, p: nat, j: Job, r: nat, t: int)
    requires IsRun(env, run, steps) && p < |steps| && LeasedAt(run, steps, p, j, t)
    requires r in run[p].pcs && run[p].pcs[r] == Sleeping
    ensures Held(run[p + 1], j, r, t)
  {
    assert Next(env, run[p], run[p + 1], steps[p]);
  }

  lemma {:induction false} EarlierPassesAreEarly(steps: seq<Step>, p: nat, r: nat, first: int, begins: seq<nat>, ends: seq<nat>, n: nat, limit: int)
    requires Passes(steps, r, first, begins, ends) && n < |begins|
    requires forall i: nat :: i < n ==> first + i * MAX_INFLIGHT <= limit
    ensures NoPassAfter(steps, p, begins[n], r, limit)
  {
    forall q | p <= q < begins[n] && steps[q].Scan? && steps[q].c == r ensures steps[q].now <= limit {
      assert q in begins;
      var m :| 0 <= m < |begins| && begins[m] == q;
      assert m < n;
    }
  }
}
