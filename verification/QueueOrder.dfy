/**
 The queue as Redis sees it, a set of texts: in a crawl with 32-bit checksums and
 timestamps of one width every member keeps its fields apart, and what a worker pops
 is the job of the bytewise least text.
 */
module QueueOrder {
  import opened Options
  import opened Codec
  import opened Web
  import opened Protocol

  /** Every enqueue writes a timestamp as `iso_utc` does. */
  ghost predicate Stamped(steps: seq<Step>) {
    forall i :: 0 <= i < |steps| && (steps[i].Push? || steps[i].PushAgain?) ==> TimestampText(steps[i].ts)
  }

  ghost predicate Realistic(env: Env, steps: seq<Step>) {
    Stamped(steps) && forall id :: env.crc(id) < 0x1_0000_0000
  }

  ghost predicate AllWellFormed(queue: set<Member>) {
    forall m :: m in queue ==> WellFormed(m)
  }

  lemma {:induction false} StepWellFormed(env: Env, s: State, s': State, step: Step)
    requires Next(env, s, s', step) && AllWellFormed(s.store.queue)
    requires forall id :: env.crc(id) < 0x1_0000_0000
    requires step.Push? || step.PushAgain? ==> TimestampText(step.ts)
    ensures AllWellFormed(s'.store.queue)
  {
    hide Plan, Answers, Affect, Remaining, IsFirst, TimestampText;
  }

  lemma {:induction false} RunWellFormed(env: Env, run: seq<State>, steps: seq<Step>, i: nat)
    requires IsRun(env, run, steps) && run[0].store.queue == {} && Realistic(env, steps) && i < |run|
    ensures AllWellFormed(run[i].store.queue)
  {
    if i > 0 {
      hide Next;
      RunWellFormed(env, run, steps, i - 1);
      StepWellFormed(env, run[i - 1], run[i], steps[i - 1]);
    }
  }

  /** Every pop takes the least of the texts in the queue, which no other member shares
      and which reads back as the job popped. */
  lemma {:induction false} PopsLeastText(env: Env, run: seq<State>, steps: seq<Step>, i: nat)
    requires IsRun(env, run, steps) && run[0].store.queue == {} && Realistic(env, steps) && Faithful(env.json)
    requires i < |steps| && steps[i].Pop?
    ensures HasLeastText(steps[i].m, run[i].store.queue, env.json)
    ensures forall x :: x in run[i].store.queue && Render(x, env.json) == Render(steps[i].m, env.json) ==> x == steps[i].m
    ensures JobIn(Render(steps[i].m, env.json), env.json) == Some(steps[i].m.job)
    ensures run[i + 1].popped == run[i].popped + [steps[i].m.job]
  {
    hide Realistic, IsFirst, HasLeastText, WellFormed, Render, Plan, JobIn, Faithful;
    var m, queue := steps[i].m, run[i].store.queue;
    RunWellFormed(env, run, steps, i);
    PopIsFirst(env, run[i], run[i + 1], steps[i]);
    FirstHasLeastText(m, queue, env.json);
    ParseRender(m, env.json);
    forall x | x in queue && Render(x, env.json) == Render(m, env.json) ensures x == m {
      RenderInjective(x, m, env.json);
    }
  }

  lemma {:induction false} PopIsFirst(env: Env, s: State, s': State, step: Step)
    requires Next(env, s, s', step) && step.Pop?
    ensures step.m in s.store.queue && IsFirst(step.m, s.store.queue, env.json) && s'.popped == s.popped + [step.m.job]
  {
    hide Plan, Answers, Affect, Remaining;
  }
}
