/**
 When the steps of a run were taken, by one clock, and where the times they carry come
 from: each was read between the coroutine's step before and the step itself.
 */
module Clocks {
  import opened Protocol

  /** Coroutine `c` may have read `ms` since its last step, with the clock at `now`. */
  ghost predicate JustRead(steps: seq<Step>, times: seq<int>, c: nat, ms: int, now: int)
    requires |times| == |steps|
  {
    ms <= now && forall i :: 0 <= i < |steps| && steps[i].c == c ==> times[i] <= ms
  }

  /** The time that `step` carries, if any, is such a reading. */
  ghost predicate OnTime(iso: int -> string, steps: seq<Step>, times: seq<int>, step: Step, now: int)
    requires |times| == |steps|
  {
    match step
    case Lease(c, ms) => JustRead(steps, times, c, ms, now)
    case Scan(c, ms, _) => JustRead(steps, times, c, ms, now)
    case Push(c, ts) => exists ms :: JustRead(steps, times, c, ms, now) && ts == iso(ms)
    case PushAgain(c, ts) => exists ms :: JustRead(steps, times, c, ms, now) && ts == iso(ms)
    case _ => true
  }

  /** Step `i` was taken at `times[i]`, on a clock that never runs backwards and stands at
      `now`. */
  ghost predicate Clocked(iso: int -> string, steps: seq<Step>, times: seq<int>, now: int) {
    && |times| == |steps|
    && (forall i, k :: 0 <= i <= k < |times| ==> times[i] <= times[k])
    && (forall i :: 0 <= i < |times| ==> times[i] <= now)
    && (forall k :: 0 <= k < |steps| ==> OnTime(iso, steps[..k], times[..k], steps[k], times[k]))
  }

  lemma {:induction false} ClockedNext(iso: int -> string, steps: seq<Step>, times: seq<int>, step: Step, now: int)
    requires Clocked(iso, steps, times, now) && OnTime(iso, steps, times, step, now)
    ensures Clocked(iso, steps + [step], times + [now], now)
  {
    hide OnTime;
    var steps', times' := steps + [step], times + [now];
    forall k | 0 <= k < |steps'| ensures OnTime(iso, steps'[..k], times'[..k], steps'[k], times'[k]) {
      assert steps'[..k] == steps[..k] && times'[..k] == times[..k];
      assert steps[..|steps|] == steps && times[..|times|] == times;
    }
  }

  lemma {:induction false} ClockedLater(iso: int -> string, steps: seq<Step>, times: seq<int>, now: int, later: int)
    requires Clocked(iso, steps, times, now) && now <= later
    ensures Clocked(iso, steps, times, later)
  {
    hide OnTime;
  }
}
