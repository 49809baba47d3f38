/**
 The dispatcher as it is written (pub_crawler/dispatcher.py): methods that send one
 Redis command after another, with other coroutines running at every `await`.

 `World` holds what the coroutines share and, as ghost state, the protocol run they
 have produced together. Every method extends that run by steps of the protocol,
 so what is proved of runs holds of this code.
 */
module Dispatching {
  import opened Options
  import opened Jobs
  import opened Codec
  import opened GraphTables
  import opened CachedGraph
  import opened Web
  import opened Protocol
  import opened Conservation
  import opened GraphView
  import opened BreadthFirst
  import opened Leases
  import opened Clocks

  /** The run leads from `start` to `s`; `alone`, undisturbed. */
  ghost predicate Leads(env: Env, start: State, s: State, alone: bool, run: seq<State>, steps: seq<Step>) {
    IsRun(env, run, steps) && run[0] == start && run[|steps|] == s && (alone ==> Undisturbed(run, steps))
  }

  lemma {:induction false} LeadsNext(env: Env, start: State, s: State, s': State, step: Step, alone: bool, run: seq<State>, steps: seq<Step>)
    requires Leads(env, start, s, alone, run, steps) && Next(env, s, s', step)
    requires alone ==> !step.Crash? && !step.Scan? && (step.Pop? ==> SeedingOver(s))
    ensures Leads(env, start, s', alone, run + [s'], steps + [step])
  {
    hide Next;
    var run', steps' := run + [s'], steps + [step];
    forall i | 0 <= i < |steps'| ensures Next(env, run'[i], run'[i + 1], steps'[i]) {
      if i < |steps| {
        assert steps[i] == steps'[i];
      }
    }
  }

  /** The jobs coroutine `c` has popped, in order. */
  function PoppedBy(steps: seq<Step>, c: nat): seq<Jobs.Job> {
    if steps == [] then []
    else
      var last := steps[|steps| - 1];
      PoppedBy(steps[..|steps| - 1], c) + (if last.Pop? && last.c == c then [last.m.job] else [])
  }

  lemma {:induction false} PoppedByNext(steps: seq<Step>, step: Step, c: nat)
    ensures PoppedBy(steps + [step], c) == PoppedBy(steps, c) + (if step.Pop? && step.c == c then [step.m.job] else [])
  {
    assert (steps + [step])[..|steps|] == steps;
  }

  /** What no step takes away. */
  ghost predicate Lasts(s: State, s': State) {
    Grows(s.graph, s'.graph) && s.store.seen <= s'.store.seen && s.store.failed <= s'.store.failed && s.completed <= s'.completed
  }

  lemma {:induction false} StepLasts(env: Env, s: State, s': State, step: Step)
    requires Next(env, s, s', step)
    ensures Lasts(s, s')
  {
    hide Plan, Answers, Remaining, IsFirst;
  }

  /** Where a lease leaves the protocol. */
  function AfterLease(env: Env, s: State, c: nat, job: Jobs.Job, now: int): State {
    s.(store := HSet(s.store, job, now + MAX_INFLIGHT), pcs := s.pcs[c := Working(Some(job), Plan(env, job))])
  }

  lemma {:induction false} LeaseNext(env: Env, s: State, c: nat, job: Jobs.Job, now: int)
    requires c in s.pcs && s.pcs[c] == Popped(job)
    ensures Next(env, s, AfterLease(env, s, c, job, now), Lease(c, now))
  {
  }

  lemma {:induction false} PopsOnly(env: Env, s: State, s': State, step: Step)
    requires Next(env, s, s', step)
    ensures !step.Pop? ==> s'.popped == s.popped
  {
    hide Plan, Answers, Affect, Remaining, IsFirst;
  }

  predicate Busy(r: Store) {
    r.queue != {} || r.inflight != map[]
  }

  /** Redis, the graph store, the clock and the event loop. `run` and `steps` are the
      history, `times` says when each step was taken, and `at` is where the protocol stands. `alone` promises that nothing disturbs the
      coroutines of this program: no lease expires, no handler meets an unforeseen
      exception, seeds go in before the first pop, and an `await` lets nobody else move. */
  class World {
    const env: Env
    const iso: int -> string
    const graph: DatabaseGraph
    var store: Store
    var clock: int
    ghost const alone: bool
    ghost const start: State
    ghost var at: State
    ghost var run: seq<State>
    ghost var steps: seq<Step>
    ghost var times: seq<int>

    ghost predicate Valid()
      reads this, graph
    {
      && at.store == store && Faithful(env.json)
      && |run| == |steps| + 1 && run[|steps|] == at && Leads(env, start, at, alone, run, steps)
      && Clocked(iso, steps, times, clock) && start.store == EMPTY_STORE
      && graph.Valid() && Represents(graph.tables, at.graph)
    }

    ghost predicate Stands(c: nat, pc: Pc)
      reads this
    {
      c in at.pcs && at.pcs[c] == pc
    }

    /** The run and the clock went on from where they were and left coroutine `c` at `pc`;
        alone, nobody else moved. */
    twostate predicate Went(c: nat, pc: Pc)
      reads this, graph
    {
      && Valid() && Stands(c, pc) && old(run) <= run && old(steps) <= steps && Lasts(old(at), at)
      && old(times) <= times && old(clock) <= clock
      && (alone ==> OthersStill(old(at).pcs, at.pcs, c))
    }

    /** Coroutine `c` has taken no step meanwhile. */
    twostate predicate Still(c: nat)
      reads this
    {
      old(|steps|) <= |steps| && forall i :: old(|steps|) <= i < |steps| ==> steps[i].c != c
    }

    /** What `c` has read of the clock it may still use, as long as it takes no step. */
    ghost predicate MayUse(c: nat, ms: int)
      reads this
    {
      |times| == |steps| && JustRead(steps, times, c, ms, clock)
    }

    /** The last step is by `c`, a lease of the job, as of a reading taken meanwhile. */
    twostate predicate LeasedNow(c: nat, job: Jobs.Job)
      reads this
    {
      && |run| == |steps| + 1 && old(|steps|) < |steps| && TakesLease(run, steps, |steps| - 1, job)
      && steps[|steps| - 1].c == c && old(clock) <= steps[|steps| - 1].now <= clock
    }

    /** Step `b` is a reaper pass by `c`, as of a reading taken meanwhile. */
    twostate predicate ScannedAt(b: nat, c: nat)
      reads this
    {
      old(|steps|) <= b < |steps| && steps[b].Scan? && steps[b].c == c && old(clock) <= steps[b].now <= clock
    }

    /** The clock is MAX_INFLIGHT, 15 minutes, past the reading of the pass at step `b`. */
    ghost predicate LongPast(b: nat)
      reads this
    {
      b < |steps| && steps[b].Scan? && steps[b].now + 15 * 60 * 1000 <= clock
    }

    /** One pass is that much later than another. */
    ghost predicate FarApart(b: nat, e: nat)
      reads this
    {
      b < e < |steps| && steps[b].Scan? && steps[e].Scan? && steps[b].now + 15 * 60 * 1000 <= steps[e].now
    }

    /** The pass lists exactly the leases taken last more than MAX_INFLIGHT before. */
    ghost predicate ListsOverdue(b: nat)
      reads this
    {
      |run| == |steps| + 1 && b < |steps| && steps[b].Scan? &&
      forall j :: j in steps[b].jobs <==> j in run[b].store.inflight && Overdue(run, steps, b, j)
    }

    /** Coroutine `c` popped nothing meanwhile; alone, nobody did. */
    twostate predicate PopsNothing(c: nat)
      reads this
    {
      PoppedBy(steps, c) == old(PoppedBy(steps, c)) && (alone ==> at.popped == old(at).popped)
    }

    /** Coroutine `c` popped just this job; alone, nobody popped another. */
    twostate predicate Pops(c: nat, job: Jobs.Job)
      reads this
    {
      PoppedBy(steps, c) == old(PoppedBy(steps, c)) + [job] && (alone ==> at.popped == old(at).popped + [job])
    }

    ghost predicate IdleAt(x: nat)
      reads this
    {
      x < |run| && run[x].store.queue == {}
    }

    /** In some state from `from` on the job was in the queue. */
    ghost predicate QueuedSince(from: nat, job: Jobs.Job)
      reads this
    {
      exists x :: from <= x < |run| && Queued(run[x].store, job)
    }

    /** From `from` on the queue was empty once, and INFLIGHT then or later. */
    ghost predicate EmptyThenFree(from: nat)
      reads this
    {
      exists x, y :: from <= x <= y < |run| && run[x].store.queue == {} && run[y].store.inflight == map[]
    }

    /** In some state from `from` on something was queued or leased. */
    ghost predicate PendingSince(from: nat)
      reads this
    {
      exists x :: from <= x < |run| && Busy(run[x].store)
    }

    /** Step `b` is a reaper pass of `c`, and all that it listed has been queued since
        and is marked seen. */
    ghost predicate PutBack(b: nat, c: nat)
      reads this
    {
      b < |steps| && steps[b].Scan? && steps[b].c == c &&
      forall j :: j in steps[b].jobs ==> QueuedSince(b + 1, j) && Hash(env, j) in at.store.seen
    }

    /** The history ends where the protocol stands. */
    lemma {:induction false} Here()
      requires Valid()
      ensures |run| == |steps| + 1 && run[|steps|] == at && at.store == store
    {
    }

    lemma {:induction false} ScanListsOverdue(b: nat)
      requires Valid() && b < |steps| && steps[b].Scan?
      ensures ListsOverdue(b)
    {
      hide Overdue, Represents, Clocked;
      ScanIsExact(env, run, steps, b);
    }

    /** What has been put back stays so. */
    twostate lemma {:induction false} PutBackLasts(c: nat)
      requires old(run) <= run && old(steps) <= steps && Lasts(old(at), at)
      ensures forall b: nat :: old(PutBack(b, c)) ==> PutBack(b, c)
    {
      forall b: nat, j | old(PutBack(b, c)) && j in steps[b].jobs ensures QueuedSince(b + 1, j) {
        assert old(QueuedSince(b + 1, j));
        var x :| b + 1 <= x < |old(run)| && Queued(old(run)[x].store, j);
        assert run[x] == old(run)[x];
      }
    }

    constructor (env: Env, iso: int -> string, clock: int, graph: DatabaseGraph, ghost start: State, ghost alone: bool)
      requires graph.Valid() && graph.tables == EMPTY && Faithful(env.json)
      requires start.store == EMPTY_STORE && start.graph == EMPTY_GRAPH
      ensures Valid() && this.env == env && this.graph == graph && this.alone == alone && this.start == start
      ensures at == start && run == [start] && this.iso == iso && this.clock == clock
    {
      this.env, this.iso, this.clock, this.graph, this.alone, this.start := env, iso, clock, graph, alone, start;
      store, at, run, steps, times := EMPTY_STORE, start, [start], [], [];
      new;
      EmptyRepresents();
    }

    /** `await`: the other coroutines take any number of steps, and any time passes. */
    method Await(ghost c: nat)
      requires Valid() && c in at.pcs
      modifies this, graph
      ensures Went(c, old(at).pcs[c]) && PopsNothing(c) && Still(c)
      ensures alone ==> at == old(at)
      ensures forall ms :: old(MayUse(c, ms)) ==> MayUse(c, ms)
    {
      hide Leads, Represents, PoppedBy;
      var ms := Now();
    }

    /** `sleep`: an `await` that takes at least so many milliseconds. */
    method Sleep(ghost c: nat, ms: int)
      requires Valid() && c in at.pcs
      modifies this, graph
      ensures Went(c, old(at).pcs[c]) && PopsNothing(c) && old(clock) + ms <= clock
      ensures alone ==> at == old(at)
    {
      hide Leads, Represents, PoppedBy, Clocked, Lasts, OthersStill, Agrees, GraphTables.WellFormed;
      var woken := clock + ms;
      Await(c);
      if clock < woken {
        ClockedLater(iso, steps, times, clock, woken);
        clock := woken;
      }
    }

    /** The wall clock: it goes on while nobody takes a step. */
    method Now() returns (ms: int)
      requires Valid()
      modifies this`clock
      ensures Valid() && old(clock) <= clock == ms
      ensures forall c :: MayUse(c, ms)
    {
      hide Leads, Represents;
      ms :| clock <= ms;
      ClockedLater(iso, steps, times, clock, ms);
      clock := ms;
    }

    /** A Redis command has been sent: take the protocol step it stands for. */
    ghost method Took(c: nat, s: State, step: Step)
      requires |run| == |steps| + 1 && run[|steps|] == at && Leads(env, start, at, alone, run, steps)
      requires Clocked(iso, steps, times, clock) && OnTime(iso, steps, times, step, clock) && start.store == EMPTY_STORE
      requires graph.Valid() && Faithful(env.json) && Represents(graph.tables, at.graph)
      requires Next(env, at, s, step) && s.graph == at.graph && s.store == store && step.c == c && c in s.pcs
      requires alone ==> !step.Crash? && !step.Scan? && (step.Pop? ==> SeedingOver(at))
      modifies this`at, this`run, this`steps, this`times
      ensures Went(c, s.pcs[c]) && at == s && run == old(run) + [s] && steps == old(steps) + [step]
      ensures !step.Pop? ==> PopsNothing(c)
      ensures step.Pop? ==> PoppedBy(steps, c) == old(PoppedBy(steps, c)) + [step.m.job]
    {
      hide Represents, Agrees, GraphTables.WellFormed, Next, Leads, PoppedBy, Lasts, Clocked, OnTime;
      ClockedNext(iso, steps, times, step, clock);
      LeadsNext(env, start, at, s, step, alone, run, steps);
      PoppedByNext(steps, step, c);
      StepLasts(env, at, s, step);
      PopsOnly(env, at, s, step);
      OnlyMoves(env, at, s, step);
      at, run, steps, times := s, run + [s], steps + [step], times + [clock];
    }

    /** A handler's graph call has been made: take the protocol step it stands for. */
    ghost method TookAct(c: nat, order: seq<string>)
      requires |run| == |steps| + 1 && run[|steps|] == at && Leads(env, start, at, alone, run, steps)
      requires Clocked(iso, steps, times, clock) && start.store == EMPTY_STORE
      requires at.store == store && graph.Valid() && Faithful(env.json)
      requires c in at.pcs && at.pcs[c].Working? && at.pcs[c].todo != []
      requires !at.pcs[c].todo[0].Enqueue? && !at.pcs[c].todo[0].Raise?
      requires Answers(at.graph, at.pcs[c].todo[0], order)
      requires Represents(graph.tables, Affect(at.graph, at.pcs[c].todo[0]))
      modifies this`at, this`run, this`steps, this`times
      ensures Went(c, Working(old(at).pcs[c].owner, Remaining(old(at).graph, old(at).pcs[c].todo, order))) && PopsNothing(c)
      ensures at.graph == Affect(old(at).graph, old(at).pcs[c].todo[0])
    {
      hide Agrees, GraphTables.WellFormed, Leads, Represents, PoppedBy, Lasts, Clocked;
      var pc := at.pcs[c];
      var s := at.(graph := Affect(at.graph, pc.todo[0]),
                   pcs := at.pcs[c := Working(pc.owner, Remaining(at.graph, pc.todo, order))]);
      var step := Act(c, order);
      ClockedNext(iso, steps, times, step, clock);
      LeadsNext(env, start, at, s, step, alone, run, steps);
      PoppedByNext(steps, step, c);
      StepLasts(env, at, s, step);
      at, run, steps, times := s, run + [s], steps + [step], times + [clock];
    }

    /** `datetime.now(...).isoformat()` */
    method Today() returns (date: string)
      ensures date != ""
    {
      date := "today";
    }
  }

  const MAX_CLIENTS := 25
  const TIME_PER_JOB := 100

  datatype Got = None | Blocked | Job(job: Jobs.Job)

  class Dispatcher {
    const world: World
    var stopped: bool

    constructor (world: World)
      ensures this.world == world && !stopped
    {
      this.world, stopped := world, false;
    }

    method Stop()
      modifies this
      ensures stopped
    {
      stopped := true;
    }

    /** Pops the first member and leases it. `Blocked` is a BZPOPMIN that has not
        answered yet. */
    method Get(ghost c: nat) returns (got: Got)
      requires world.Valid() && world.Stands(c, Idle) && (world.alone ==> SeedingOver(world.at))
      modifies world, world.graph
      ensures got.Job? ==> world.Went(c, Working(Some(got.job), Plan(world.env, got.job)))
      ensures !got.Job? ==> world.Went(c, Idle)
      ensures got.None? <==> stopped
      ensures got.Blocked? ==> world.at == old(world.at) && world.store.queue == {}
      ensures got.Job? ==> world.Pops(c, got.job) && world.LeasedNow(c, got.job)
      ensures !got.Job? ==> world.run == old(world.run) && world.steps == old(world.steps)
    {
      hide Leads, Clocked, PoppedBy, Represents, Agrees, GraphTables.WellFormed, SeedingOver, Plan;
      if stopped {
        return Got.None;
      }
      if world.store.queue == {} {
        return Blocked;
      }
      var job := Take(c);
      got := Got.Job(job);
    }

    /** A BZPOPMIN that answers, and the HSET that leases the job. */
    method Take(ghost c: nat) returns (job: Jobs.Job)
      requires world.Valid() && world.Stands(c, Idle) && world.store.queue != {} && (world.alone ==> SeedingOver(world.at))
      modifies world, world.graph
      ensures world.Went(c, Working(Some(job), Plan(world.env, job)))
      ensures world.Pops(c, job) && world.LeasedNow(c, job)
    {
      hide World.Valid, PoppedBy, Plan, SeedingOver;
      job := PopFirst(c);
      world.Await(c);
      AddInflight(c, job);
    }

    /** BZPOPMIN on a queue that is not empty. */
    method PopFirst(ghost c: nat) returns (job: Jobs.Job)
      requires world.Valid() && world.Stands(c, Idle) && world.store.queue != {} && (world.alone ==> SeedingOver(world.at))
      modifies world
      ensures world.Went(c, Popped(job)) && world.Pops(c, job)
    {
      hide Leads, Clocked, PoppedBy, Represents, Agrees, GraphTables.WellFormed;
      ghost var s := world.at;
      FirstExists(world.store.queue, world.env.json);
      var m: Member :| m in world.store.queue && IsFirst(m, world.store.queue, world.env.json);
      job := m.job;
      world.store := ZRem(world.store, m);
      world.Took(c, s.(store := world.store, pcs := s.pcs[c := Popped(job)], popped := s.popped + [job]), Pop(c, m));
    }

    /** The clock is read before the HSET is sent. */
    method AddInflight(ghost c: nat, job: Jobs.Job)
      requires world.Valid() && world.Stands(c, Popped(job))
      modifies world, world.graph
      ensures world.Went(c, Working(Some(job), Plan(world.env, job))) && world.PopsNothing(c)
      ensures world.LeasedNow(c, job)
    {
      hide World.Valid, PoppedBy, Plan;
      var now := world.Now();
      world.Await(c);
      world.Here();
      SetInflight(c, job, now);
    }

    method SetInflight(ghost c: nat, job: Jobs.Job, now: int)
      requires world.Valid() && world.Stands(c, Popped(job)) && world.MayUse(c, now)
      modifies world
      ensures world.Went(c, Working(Some(job), Plan(world.env, job))) && world.PopsNothing(c)
      ensures world.clock == old(world.clock) && world.steps == old(world.steps) + [Lease(c, now)] && |world.run| == |world.steps| + 1
      ensures world.run[..|world.steps|] == old(world.run)
    {
      hide Leads, Clocked, PoppedBy, Represents, Agrees, GraphTables.WellFormed, Plan;
      ghost var s := world.at;
      world.store := HSet(world.store, job, now + MAX_INFLIGHT);
      LeaseNext(world.env, s, c, job, now);
      world.Took(c, AfterLease(world.env, s, c, job, now), Lease(c, now));
    }

    /** SADD first, ZADD only if the hash was new. */
    method EnqueueIfUnseen(ghost c: nat, job: Jobs.Job, ghost owner: Option<Jobs.Job>, ghost rest: seq<Action>)
      returns (added: bool)
      requires world.Valid() && world.Stands(c, Working(owner, [Action.Enqueue(job)] + rest))
      modifies world, world.graph
      ensures world.Went(c, Working(owner, rest))
      ensures world.PopsNothing(c)
      ensures added <==> Hash(world.env, job) !in old(world.store).seen
      ensures Hash(world.env, job) in world.at.store.seen && (added ==> world.QueuedSince(old(|world.run|), job))
    {
      hide World.Valid, PoppedBy, Hash;
      added := MarkIfNew(c, job, owner, rest);
      if added {
        world.Await(c);
        AddToQueue(c, job, owner, rest);
      }
    }

    /** SADD SEEN_HASHED, which tells whether the hash was new. */
    method MarkIfNew(ghost c: nat, job: Jobs.Job, ghost owner: Option<Jobs.Job>, ghost rest: seq<Action>)
      returns (added: bool)
      requires world.Valid() && world.Stands(c, Working(owner, [Action.Enqueue(job)] + rest))
      modifies world
      ensures world.Went(c, if added then Admitting(owner, job, rest) else Working(owner, rest))
      ensures world.PopsNothing(c)
      ensures added <==> Hash(world.env, job) !in old(world.store).seen
      ensures Hash(world.env, job) in world.at.store.seen
    {
      hide Leads, Clocked, PoppedBy, Represents, Agrees, GraphTables.WellFormed;
      ghost var s := world.at;
      assert ([Action.Enqueue(job)] + rest)[1..] == rest;
      var hash := Hash(world.env, job);
      added := hash !in world.store.seen;
      world.store := SAddSeen(world.store, hash);
      if added {
        world.Took(c, s.(store := world.store, pcs := s.pcs[c := Admitting(owner, job, rest)]), Admit(c));
      } else {
        assert world.store == s.store;
        world.Took(c, s.(pcs := s.pcs[c := Working(owner, rest)]), Admit(c));
      }
    }

    /** The member is made up, with the time, before the ZADD is sent. */
    method AddToQueue(ghost c: nat, job: Jobs.Job, ghost owner: Option<Jobs.Job>, ghost rest: seq<Action>)
      requires world.Valid() && world.Stands(c, Admitting(owner, job, rest))
      modifies world, world.graph
      ensures world.Went(c, Working(owner, rest))
      ensures world.PopsNothing(c) && world.QueuedSince(old(|world.run|), job)
    {
      hide World.Valid, PoppedBy;
      var now := world.Now();
      var member := MemberOf(job, world.env.crc, world.iso(now));
      world.Await(c);
      ZAddNew(c, member, now, owner, rest);
    }

    method ZAddNew(ghost c: nat, member: Member, ghost now: int, ghost owner: Option<Jobs.Job>, ghost rest: seq<Action>)
      requires world.Valid() && world.Stands(c, Admitting(owner, member.job, rest)) && world.MayUse(c, now)
      requires member == MemberOf(member.job, world.env.crc, world.iso(now))
      modifies world
      ensures world.Went(c, Working(owner, rest))
      ensures world.PopsNothing(c) && world.QueuedSince(old(|world.run|), member.job)
    {
      hide Leads, Clocked, PoppedBy, Represents, Agrees, GraphTables.WellFormed;
      ghost var s := world.at;
      assert JustRead(world.steps, world.times, c, now, world.clock);
      world.store := ZAdd(world.store, member);
      world.Took(c, s.(store := world.store, pcs := s.pcs[c := Working(owner, rest)]), Push(c, world.iso(now)));
      assert member in world.run[old(|world.run|)].store.queue;
    }

    /** `join`, given up after `naps` sleeps: two reads, with an `await` in between, and a
        sleep of 4 milliseconds or more when they find something. When it answers that all
        is over, the queue was empty at one moment and INFLIGHT at that moment or a later
        one; when it gives up, one of them was not. */
    method Join(ghost c: nat, naps: nat) returns (over: bool)
      requires world.Valid() && c in world.at.pcs
      modifies world, world.graph
      ensures world.Went(c, old(world.at).pcs[c]) && world.PopsNothing(c)
      ensures over ==> world.EmptyThenFree(old(|world.steps|))
      ensures !over && naps > 0 ==> world.PendingSince(old(|world.steps|))
      ensures !over ==> old(world.clock) + 4 * naps <= world.clock
      ensures world.alone ==> (over <==> naps > 0 && !Busy(world.at.store)) && world.at == old(world.at)
    {
      hide World.Valid, PoppedBy, Busy;
      for i := 0 to naps
        invariant world.Went(c, old(world.at).pcs[c]) && world.PopsNothing(c)
        invariant world.alone ==> world.at == old(world.at) && (i > 0 ==> Busy(world.at.store))
        invariant i > 0 ==> world.PendingSince(old(|world.steps|))
        invariant old(world.clock) + 4 * i <= world.clock
      {
        var found;
        over, found := Look(c);
        if over {
          return;
        }
        world.Sleep(c, found * TIME_PER_JOB / MAX_CLIENTS);
      }
      over := false;
    }

    /** ZCARD QUEUE, then HLEN INFLIGHT; all is over when they find nothing. */
    method Look(ghost c: nat) returns (over: bool, found: nat)
      requires world.Valid() && c in world.at.pcs
      modifies world, world.graph
      ensures world.Went(c, old(world.at).pcs[c]) && world.PopsNothing(c)
      ensures over <==> found == 0
      ensures over ==> world.EmptyThenFree(old(|world.steps|))
      ensures !over ==> world.PendingSince(old(|world.steps|))
      ensures world.alone ==> (over <==> !Busy(world.at.store)) && world.at == old(world.at)
    {
      hide World.Valid, PoppedBy;
      world.Here();
      ghost var x := |world.steps|;
      var job_count := |world.store.queue|;
      world.Await(c);
      world.Here();
      ghost var y := |world.steps|;
      var inflight_count := |world.store.inflight|;
      over, found := job_count == 0 && inflight_count == 0, job_count + inflight_count;
      assert world.run[x].store.queue == {} <==> job_count == 0;
      assert world.run[y].store.inflight == map[] <==> inflight_count == 0;
    }

    method Done(ghost c: nat, job: Jobs.Job)
      requires world.Valid() && world.Stands(c, Working(Some(job), []))
      modifies world
      ensures world.PopsNothing(c)
      ensures world.Went(c, Idle) && job in world.at.completed && job !in world.store.inflight
    {
      hide Leads, Clocked, PoppedBy, Represents, Agrees, GraphTables.WellFormed;
      ghost var s := world.at;
      world.store := HDel(world.store, job);
      world.Took(c, s.(store := world.store, pcs := s.pcs[c := Idle], completed := s.completed + {job}), Complete(c));
    }

    method Fail(ghost c: nat, job: Jobs.Job, ghost rest: seq<Action>)
      requires world.Valid() && world.Stands(c, Working(Some(job), [Raise] + rest))
      modifies world, world.graph
      ensures world.PopsNothing(c)
      ensures world.Went(c, Idle) && job in world.store.failed
    {
      hide World.Valid, PoppedBy;
      GiveUp(c, job, rest);
      world.Await(c);
      RecordFailed(c, job);
    }

    method GiveUp(ghost c: nat, job: Jobs.Job, ghost rest: seq<Action>)
      requires world.Valid() && world.Stands(c, Working(Some(job), [Raise] + rest))
      modifies world
      ensures world.Went(c, Failing(job))
      ensures world.PopsNothing(c)
    {
      hide Leads, Clocked, PoppedBy, Represents, Agrees, GraphTables.WellFormed;
      ghost var s := world.at;
      world.store := HDel(world.store, job);
      world.Took(c, s.(store := world.store, pcs := s.pcs[c := Failing(job)]), Give(c));
    }

    method RecordFailed(ghost c: nat, job: Jobs.Job)
      requires world.Valid() && world.Stands(c, Failing(job))
      modifies world
      ensures world.PopsNothing(c)
      ensures world.Went(c, Idle) && job in world.store.failed
    {
      hide Leads, Clocked, PoppedBy, Represents, Agrees, GraphTables.WellFormed;
      ghost var s := world.at;
      world.store := SAddFailed(world.store, job);
      world.Took(c, s.(store := world.store, pcs := s.pcs[c := Idle]), Record(c));
    }

    /** The leases that at one HGETALL are past their deadline, by the clock as it was read
        before. */
    method Expired(ghost c: nat) returns (exp: seq<Jobs.Job>)
      requires world.Valid() && world.Stands(c, Sleeping) && !world.alone
      modifies world, world.graph
      ensures world.Went(c, Reaping(exp)) && world.PopsNothing(c)
      ensures world.ScannedAt(|world.steps| - 1, c) && world.steps[|world.steps| - 1].jobs == exp
      ensures world.ListsOverdue(|world.steps| - 1)
    {
      hide World.Valid, PoppedBy, Overdue;
      var now := world.Now();
      world.Await(c);
      exp := Past(c, now);
      world.ScanListsOverdue(|world.steps| - 1);
    }

    /** HGETALL INFLIGHT. */
    method Past(ghost c: nat, now: int) returns (exp: seq<Jobs.Job>)
      requires world.Valid() && world.Stands(c, Sleeping) && !world.alone && world.MayUse(c, now)
      modifies world
      ensures world.Went(c, Reaping(exp)) && world.PopsNothing(c) && world.clock == old(world.clock)
      ensures world.steps == old(world.steps) + [Scan(c, now, exp)]
    {
      hide Leads, Clocked, PoppedBy, Represents, Agrees, GraphTables.WellFormed;
      ghost var s := world.at;
      var leases := world.store.inflight;
      var keys := leases.Keys;
      exp := [];
      while keys != {}
        invariant keys <= leases.Keys
        invariant forall j :: j in exp <==> j in leases && j !in keys && leases[j] < now
      {
        var job :| job in keys;
        keys := keys - {job};
        if leases[job] < now {
          exp := exp + [job];
        }
      }
      world.Took(c, s.(pcs := s.pcs[c := Reaping(exp)]), Scan(c, now, exp));
    }

    /** Drops the lease, queues the job again, and marks it seen. */
    method Enqueue(ghost c: nat, job: Jobs.Job, ghost rest: seq<Jobs.Job>)
      requires world.Valid() && world.Stands(c, Reaping([job] + rest))
      modifies world, world.graph
      ensures world.Went(c, Reaping(rest)) && world.PopsNothing(c)
      ensures world.QueuedSince(old(|world.run|), job) && Hash(world.env, job) in world.at.store.seen
    {
      hide World.Valid, PoppedBy, Hash;
      DropStaleLease(c, job, rest);
      world.Await(c);
      PushBack(c, job, rest);
      world.Await(c);
      MarkRequeued(c, job, rest);
    }

    method DropStaleLease(ghost c: nat, job: Jobs.Job, ghost rest: seq<Jobs.Job>)
      requires world.Valid() && world.Stands(c, Reaping([job] + rest))
      modifies world
      ensures world.Went(c, Unleased(job, rest)) && world.PopsNothing(c)
    {
      hide Leads, Clocked, PoppedBy, Represents, Agrees, GraphTables.WellFormed;
      ghost var s := world.at;
      assert ([job] + rest)[1..] == rest;
      world.store := HDel(world.store, job);
      world.Took(c, s.(store := world.store, pcs := s.pcs[c := Unleased(job, rest)]), DropLease(c));
    }

    method PushBack(ghost c: nat, job: Jobs.Job, ghost rest: seq<Jobs.Job>)
      requires world.Valid() && world.Stands(c, Unleased(job, rest))
      modifies world, world.graph
      ensures world.Went(c, Requeued(job, rest)) && world.PopsNothing(c) && world.QueuedSince(old(|world.run|), job)
    {
      hide World.Valid, PoppedBy;
      var now := world.Now();
      var member := MemberOf(job, world.env.crc, world.iso(now));
      world.Await(c);
      ZAddAgain(c, member, now, rest);
    }

    method ZAddAgain(ghost c: nat, member: Member, ghost now: int, ghost rest: seq<Jobs.Job>)
      requires world.Valid() && world.Stands(c, Unleased(member.job, rest)) && world.MayUse(c, now)
      requires member == MemberOf(member.job, world.env.crc, world.iso(now))
      modifies world
      ensures world.Went(c, Requeued(member.job, rest)) && world.PopsNothing(c) && world.QueuedSince(old(|world.run|), member.job)
    {
      hide Leads, Clocked, PoppedBy, Represents, Agrees, GraphTables.WellFormed;
      ghost var s := world.at;
      assert JustRead(world.steps, world.times, c, now, world.clock);
      world.store := ZAdd(world.store, member);
      world.Took(c, s.(store := world.store, pcs := s.pcs[c := Requeued(member.job, rest)]), PushAgain(c, world.iso(now)));
      assert member in world.run[old(|world.run|)].store.queue;
    }

    method MarkRequeued(ghost c: nat, job: Jobs.Job, ghost rest: seq<Jobs.Job>)
      requires world.Valid() && world.Stands(c, Requeued(job, rest))
      modifies world
      ensures world.Went(c, Reaping(rest)) && world.PopsNothing(c) && Hash(world.env, job) in world.at.store.seen
    {
      hide Leads, Clocked, PoppedBy, Represents, Agrees, GraphTables.WellFormed;
      ghost var s := world.at;
      world.store := SAddSeen(world.store, Hash(world.env, job));
      world.Took(c, s.(store := world.store, pcs := s.pcs[c := Reaping(rest)]), MarkSeen(c));
    }
  }
}
