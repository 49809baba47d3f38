/**
 A crawl never gets stuck half way: without reaping, as long as one worker is idle,
 a state from which nothing more can happen is a finished one. With the bound on
 the moves of a run, every crawl left to itself comes to that.
 */
module Progress {
  import opened Options
  import opened Jobs
  import opened Codec
  import opened Web
  import opened Protocol
  import opened ExactlyOnce
  import opened Todo
  import opened Closure

  /** Some coroutine can go on; stopping, crashing and reaping do not count. */
  ghost predicate CanGoOn(env: Env, s: State) {
    exists s', step :: GoesOn(env, s, s', step)
  }

  ghost predicate GoesOn(env: Env, s: State, s': State, step: Step) {
    Next(env, s, s', step) && !step.Quit? && !step.Crash? && !step.Scan?
  }

  /** Seeding scripts only enqueue. */
  ghost predicate ScriptsEnqueue(s: State) {
    forall c, i :: c in s.pcs && Script(s.pcs[c]) && 0 <= i < |s.pcs[c].todo| ==> s.pcs[c].todo[i].Enqueue?
  }

  predicate Script(pc: Pc) {
    (pc.Working? || pc.Admitting?) && pc.owner.None?
  }

  lemma {:induction false} StepKeepsScripts(env: Env, s: State, s': State, step: Step)
    requires Next(env, s, s', step) && ScriptsEnqueue(s)
    ensures ScriptsEnqueue(s')
  {
    hide Plan, IsFirst, Affect, Answers, MemberOf;
    forall c, i | c in s'.pcs && Script(s'.pcs[c]) && 0 <= i < |s'.pcs[c].todo| ensures s'.pcs[c].todo[i].Enqueue? {
      var todo := s.pcs[c].todo;
      assert todo != [] ==> todo[0].Enqueue?;
      assert s'.pcs[c].todo == todo || (todo != [] && s'.pcs[c].todo == todo[1..]);
    }
  }

  lemma {:induction false} RunKeepsScripts(env: Env, run: seq<State>, steps: seq<Step>, seeds: set<Job>, i: nat)
    requires IsRun(env, run, steps) && Initial(run[0], seeds) && i < |run|
    ensures ScriptsEnqueue(run[i])
  {
    if i > 0 {
      RunKeepsScripts(env, run, steps, seeds, i - 1);
      StepKeepsScripts(env, run[i - 1], run[i], steps[i - 1]);
    }
  }

  lemma {:induction false} Listing(labels: set<string>) returns (order: seq<string>)
    ensures NoRepeats(order) && Elements(order) == labels
  {
    order := [];
    var left := labels;
    while left != {}
      invariant left <= labels && Elements(order) == labels - left && NoRepeats(order)
      decreases left
    {
      var l :| l in left;
      assert l !in Elements(order) && Elements(order + [l]) == Elements(order) + {l};
      order, left := order + [l], left - {l};
    }
  }

  lemma {:induction false} GraphAnswers(g: Graph, a: Action) returns (order: seq<string>)
    ensures Answers(g, a, order)
  {
    match a
    case StampDepth(ids, _) => order := Listing(Elements(ids) - g.depth.Keys);
    case QueueUnfetched(ids, _) => order := Listing(Elements(ids) - g.fetched);
    case _ => order := [];
  }

  /** A handler or script in the middle of its calls can make the next one. */
  lemma {:induction false} HandlerGoesOn(env: Env, s: State, c: nat)
    requires ScriptsEnqueue(s) && c in s.pcs && s.pcs[c].Working?
    ensures CanGoOn(env, s)
  {
    hide Plan, IsFirst, MemberOf;
    var pc := s.pcs[c];
    if pc.todo == [] {
      if pc.owner.Some? {
        assert GoesOn(env, s, s.(store := HDel(s.store, pc.owner.value), pcs := s.pcs[c := Idle],
                                 completed := s.completed + {pc.owner.value}), Complete(c));
      } else {
        assert GoesOn(env, s, s.(pcs := s.pcs[c := Stopped]), SeedsDone(c));
      }
    } else if pc.todo[0].Enqueue? {
      var job, rest := pc.todo[0].job, pc.todo[1..];
      var s' := if Hash(env, job) in s.store.seen then s.(pcs := s.pcs[c := Working(pc.owner, rest)])
                else s.(store := SAddSeen(s.store, Hash(env, job)), pcs := s.pcs[c := Admitting(pc.owner, job, rest)]);
      assert GoesOn(env, s, s', Admit(c));
    } else if pc.todo[0].Raise? {
      assert GoesOn(env, s, s.(store := HDel(s.store, pc.owner.value), pcs := s.pcs[c := Failing(pc.owner.value)]), Give(c));
    } else {
      var order := GraphAnswers(s.graph, pc.todo[0]);
      assert GoesOn(env, s, s.(graph := Affect(s.graph, pc.todo[0]),
                               pcs := s.pcs[c := Working(pc.owner, Remaining(s.graph, pc.todo, order))]), Act(c, order));
    }
  }

  /** So can every coroutine between two commands. */
  lemma {:induction false} CarrierGoesOn(env: Env, s: State, c: nat)
    requires c in s.pcs && (s.pcs[c].Popped? || s.pcs[c].Admitting? || s.pcs[c].Failing?)
    ensures CanGoOn(env, s)
  {
    hide Plan, IsFirst, MemberOf, Affect, Answers, Remaining;
    var pc := s.pcs[c];
    match pc
    case Popped(j) =>
      assert GoesOn(env, s, s.(store := HSet(s.store, j, 0 + MAX_INFLIGHT), pcs := s.pcs[c := Working(Some(j), Plan(env, j))]), Lease(c, 0));
    case Admitting(owner, j, todo) =>
      assert GoesOn(env, s, s.(store := ZAdd(s.store, MemberOf(j, env.crc, "")), pcs := s.pcs[c := Working(owner, todo)]), Push(c, ""));
    case Failing(j) =>
      assert GoesOn(env, s, s.(store := SAddFailed(s.store, j), pcs := s.pcs[c := Idle]), Record(c));
  }

  /** So can an idle worker when something is queued. */
  lemma {:induction false} IdleGoesOn(env: Env, s: State, c: nat)
    requires Faithful(env.json) && c in s.pcs && s.pcs[c] == Idle && s.store.queue != {}
    ensures CanGoOn(env, s)
  {
    hide Plan, IsFirst, MemberOf, Affect, Answers, Remaining;
    var m := First(s.store.queue, env.json);
    assert GoesOn(env, s, s.(store := ZRem(s.store, m), pcs := s.pcs[c := Popped(m.job)], popped := s.popped + [m.job]), Pop(c, m));
  }

  /** Where nothing can go on and a worker is idle, nothing is left to do. */
  lemma {:induction false} StuckIsQuiet(env: Env, s: State, worker: nat)
    requires Once(env, s) && ScriptsEnqueue(s) && Faithful(env.json) && !CanGoOn(env, s)
    requires worker in s.pcs && s.pcs[worker] == Idle
    ensures Quiet(s)
  {
    hide CanGoOn, OneToken, PoppedOnce, ScriptsEnqueue;
    if s.store.queue != {} {
      IdleGoesOn(env, s, worker);
    }
    forall c | c in s.pcs ensures s.pcs[c] == Idle || s.pcs[c] == Stopped || s.pcs[c] == Sleeping {
      if s.pcs[c].Working? {
        HandlerGoesOn(env, s, c);
      } else if s.pcs[c].Popped? || s.pcs[c].Admitting? || s.pcs[c].Failing? {
        CarrierGoesOn(env, s, c);
      }
    }
    assert forall c :: c in s.pcs ==> OwnerOf(s.pcs[c]).None?;
    assert s.store.inflight.Keys == {};
  }

  /** A crawl by any number of workers that can go no further, with a worker to
      spare, has finished every job it saw, and seen all that those jobs discover. */
  lemma {:induction false} StuckIsFinished(env: Env, run: seq<State>, steps: seq<Step>, seeds: set<Job>, worker: nat)
    requires IsRun(env, run, steps) && Initial(run[0], seeds) && NoReaping(steps) && Faithful(env.json)
    requires !CanGoOn(env, run[|steps|]) && worker in run[|steps|].pcs && run[|steps|].pcs[worker] == Idle
    ensures var s := run[|steps|];
            && Quiet(s) && (forall h :: h in s.store.seen ==> Finished(env, s, h))
            && (forall j, k :: j in s.completed && k in Successors(env, j) ==> Finished(env, s, Hash(env, k)))
  {
    RunOnce(env, run, steps, seeds, |steps|);
    RunKeepsScripts(env, run, steps, seeds, |steps|);
    StuckIsQuiet(env, run[|steps|], worker);
    QuietIsClosed(env, run, steps, seeds, |steps|);
  }
}
