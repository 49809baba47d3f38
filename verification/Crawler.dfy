/**
 Workers and the reaper (pub_crawler/crawler.py), and a whole single-worker crawl.

 Loops that run until the process is stopped are modelled by their first rounds,
 for any number of rounds.
 */
module Crawling {
  import opened Options
  import opened JsonValues
  import opened Jobs
  import Codec
  import opened GraphTables
  import opened CachedGraph
  import opened Web
  import opened Protocol
  import opened ExactlyOnce
  import opened Todo
  import opened Closure
  import opened DepthSoundness
  import opened BreadthFirst
  import opened MinimumDepth
  import opened Termination
  import opened GraphView
  import opened Leases
  import opened Clocks
  import opened Dispatching
  import opened Handling

  class Crawler {
    const dispatcher: Dispatcher
    const webfinger: WebfingerHandler
    const actor: ActorHandler
    const collection: CollectionHandler
    const page: PageHandler

    ghost predicate Wired()
    {
      webfinger.dispatcher == dispatcher && actor.dispatcher == dispatcher &&
      collection.dispatcher == dispatcher && page.dispatcher == dispatcher
    }

    constructor (dispatcher: Dispatcher)
      ensures Wired() && this.dispatcher == dispatcher
    {
      this.dispatcher := dispatcher;
      var w := new WebfingerHandler(dispatcher);
      var a := new ActorHandler(dispatcher);
      var c := new CollectionHandler(dispatcher);
      var p := new PageHandler(dispatcher);
      webfinger, actor, collection, page := w, a, c, p;
    }

    /** Routes a job to the handler of its type. */
    method Dispatch(ghost c: nat, job: Job) returns (ok: bool)
      requires Wired() && dispatcher.world.Valid()
      requires dispatcher.world.Stands(c, Working(Some(job), Plan(dispatcher.world.env, job)))
      modifies dispatcher.world, dispatcher.world.graph
      ensures ok ==> dispatcher.world.Went(c, Working(Some(job), []))
      ensures !ok ==> dispatcher.world.Went(c, Working(Some(job), [Raise]))
      ensures dispatcher.world.PopsNothing(c)
    {
      hide World.Valid, PoppedBy, Walk, CollectionWalk, PageWalk, ActorPlan, WebfingerPlan;
      match job
      case Webfinger(wf) => ok := webfinger.Handle(c, wf);
      case Actor(a, d) => ok := actor.Handle(c, a, d);
      case Collection(u, o, dir, d) => ok := collection.Handle(c, u, o, dir, d);
      case Page(u, o, dir, d) => ok := page.Handle(c, u, o, dir, d);
    }

    /** Handle a leased job, then release it one way or the other. */
    method Finish(ghost c: nat, job: Job)
      requires Wired() && dispatcher.world.Valid()
      requires dispatcher.world.Stands(c, Working(Some(job), Plan(dispatcher.world.env, job)))
      modifies dispatcher.world, dispatcher.world.graph
      ensures dispatcher.world.Went(c, Idle)
      ensures dispatcher.world.PopsNothing(c) && Handled(dispatcher.world.at, job)
    {
      hide World.Valid, PoppedBy, Plan;
      dispatcher.world.Await(c);
      var ok := Dispatch(c, job);
      Release(c, job, ok);
    }

    method Release(ghost c: nat, job: Job, ok: bool)
      requires dispatcher.world.Valid() && dispatcher.world.Stands(c, Working(Some(job), if ok then [] else [Raise]))
      modifies dispatcher.world, dispatcher.world.graph
      ensures dispatcher.world.Went(c, Idle)
      ensures dispatcher.world.PopsNothing(c) && Handled(dispatcher.world.at, job)
    {
      hide World.Valid, PoppedBy;
      dispatcher.world.Await(c);
      if ok {
        dispatcher.Done(c, job);
      } else {
        Abandon(c, job);
      }
    }

    method Abandon(ghost c: nat, job: Job)
      requires dispatcher.world.Valid() && dispatcher.world.Stands(c, Working(Some(job), [Raise]))
      modifies dispatcher.world, dispatcher.world.graph
      ensures dispatcher.world.Went(c, Idle)
      ensures dispatcher.world.PopsNothing(c) && job in dispatcher.world.at.store.failed
    {
      assert [Raise] == [Raise] + [];
      dispatcher.Fail(c, job, []);
    }

    /** One pass of the worker's loop; false when the dispatcher has been stopped. */
    method Round(ghost c: nat) returns (got: Got)
      requires Wired() && dispatcher.world.Valid() && dispatcher.world.Stands(c, Idle)
      requires dispatcher.world.alone ==> SeedingOver(dispatcher.world.at)
      modifies dispatcher.world, dispatcher.world.graph
      ensures dispatcher.world.Went(c, Idle)
      ensures got.None? <==> dispatcher.stopped
      ensures got.Blocked? ==> dispatcher.world.at == old(dispatcher.world.at) && dispatcher.world.store.queue == {}
      ensures got.Job? ==> dispatcher.world.Pops(c, got.job) && Handled(dispatcher.world.at, got.job)
      ensures !got.Job? ==> dispatcher.world.run == old(dispatcher.world.run) && dispatcher.world.steps == old(dispatcher.world.steps)
    {
      hide World.Valid, PoppedBy, Plan, SeedingOver;
      got := dispatcher.Get(c);
      if got.Job? {
        Finish(c, got.job);
      }
    }

    /** A worker among others: in each of its rounds it pops a job and sees it through
        to the completed or the failed ones, or it finds the queue empty, unless the
        dispatcher has been stopped. */
    method Worker(ghost c: nat, rounds: nat) returns (ghost pops: seq<Job>, ghost idle: seq<nat>)
      requires Wired() && dispatcher.world.Valid() && dispatcher.world.Stands(c, Idle) && !dispatcher.world.alone
      modifies dispatcher.world, dispatcher.world.graph
      ensures dispatcher.world.Went(c, Idle)
      ensures PoppedBy(dispatcher.world.steps, c) == old(PoppedBy(dispatcher.world.steps, c)) + pops
      ensures forall j :: j in pops ==> Handled(dispatcher.world.at, j)
      ensures forall x :: x in idle ==> dispatcher.world.IdleAt(x) && old(|dispatcher.world.steps|) <= x
      ensures |pops| + |idle| == if dispatcher.stopped then 0 else rounds
    {
      hide World.Valid, PoppedBy, OthersStill;
      pops, idle := [], [];
      for i := 0 to rounds
        invariant dispatcher.world.Went(c, Idle)
        invariant PoppedBy(dispatcher.world.steps, c) == old(PoppedBy(dispatcher.world.steps, c)) + pops
        invariant forall j :: j in pops ==> Handled(dispatcher.world.at, j)
        invariant forall x :: x in idle ==> dispatcher.world.IdleAt(x) && old(|dispatcher.world.steps|) <= x
        invariant |pops| + |idle| == if dispatcher.stopped then 0 else i
      {
        dispatcher.world.Here();
        var got := Round(c);
        if got.None? {
          return;
        }
        dispatcher.world.Here();
        if got.Job? {
          pops := pops + [got.job];
        } else {
          idle := idle + [|dispatcher.world.steps|];
        }
        dispatcher.world.Await(c);
      }
    }

    /** `reap`: lists the overdue leases, then queues every job listed again and marks it
        seen. */
    method Reap(ghost c: nat) returns (ghost b: nat)
      requires dispatcher.world.Valid() && dispatcher.world.Stands(c, Sleeping) && !dispatcher.world.alone
      modifies dispatcher.world, dispatcher.world.graph
      ensures dispatcher.world.Went(c, Sleeping) && dispatcher.world.PopsNothing(c)
      ensures dispatcher.world.ScannedAt(b, c) && dispatcher.world.ListsOverdue(b) && dispatcher.world.PutBack(b, c)
    {
      hide World.Valid, PoppedBy, Overdue;
      var exp := dispatcher.Expired(c);
      dispatcher.world.Here();
      b := |dispatcher.world.steps| - 1;
      dispatcher.world.Await(c);
      EnqueueAgain(c, exp);
      Sleep(c);
      dispatcher.world.ScanListsOverdue(b);
    }

    method EnqueueAgain(ghost c: nat, exp: seq<Job>)
      requires dispatcher.world.Valid() && dispatcher.world.Stands(c, Reaping(exp))
      modifies dispatcher.world, dispatcher.world.graph
      ensures dispatcher.world.Went(c, Reaping([])) && dispatcher.world.PopsNothing(c)
      ensures forall j :: j in exp ==> dispatcher.world.QueuedSince(old(|dispatcher.world.run|), j)
      ensures forall j :: j in exp ==> Hash(dispatcher.world.env, j) in dispatcher.world.at.store.seen
    {
      hide World.Valid, PoppedBy, Hash;
      ghost var jobs := exp;
      assert exp[0..] == exp;
      for i := 0 to |exp|
        invariant dispatcher.world.Went(c, Reaping(jobs)) && dispatcher.world.PopsNothing(c)
        invariant jobs == exp[i..]
        invariant forall k :: 0 <= k < i ==> dispatcher.world.QueuedSince(old(|dispatcher.world.run|), exp[k])
        invariant forall k :: 0 <= k < i ==> Hash(dispatcher.world.env, exp[k]) in dispatcher.world.at.store.seen
      {
        SplitFirst(exp, i);
        jobs := exp[i + 1..];
        dispatcher.Enqueue(c, exp[i], jobs);
      }
    }

    lemma {:induction false} SplitFirst(jobs: seq<Job>, i: nat)
      requires i < |jobs|
      ensures jobs[i..] == [jobs[i]] + jobs[i + 1..]
    {
    }

    ghost method Sleep(c: nat)
      requires dispatcher.world.Valid() && dispatcher.world.Stands(c, Reaping([])) && !dispatcher.world.alone
      modifies dispatcher.world`at, dispatcher.world`run, dispatcher.world`steps, dispatcher.world`times
      ensures dispatcher.world.Went(c, Sleeping) && dispatcher.world.PopsNothing(c)
      ensures dispatcher.world.at.store == old(dispatcher.world.at).store
    {
      hide Leads, Clocked, PoppedBy, Represents, WellFormed, Agrees;
      var s := dispatcher.world.at;
      dispatcher.world.Took(c, s.(pcs := s.pcs[c := Sleeping]), Rest(c));
    }

    /** `reap_worker`: one pass after another, each seen through, MAX_INFLIGHT or more apart. */
    method ReapWorker(ghost c: nat, passes: nat) returns (ghost begins: seq<nat>)
      requires dispatcher.world.Valid() && dispatcher.world.Stands(c, Sleeping) && !dispatcher.world.alone
      modifies dispatcher.world, dispatcher.world.graph
      ensures dispatcher.world.Went(c, Sleeping)
      ensures |begins| == passes && forall i :: 0 <= i < passes ==> dispatcher.world.ScannedAt(begins[i], c) && dispatcher.world.PutBack(begins[i], c)
      ensures forall i, k :: 0 <= i < k < passes ==> dispatcher.world.FarApart(begins[i], begins[k])
    {
      hide World.Valid, PoppedBy;
      begins := [];
      for i := 0 to passes
        invariant dispatcher.world.Went(c, Sleeping) && |begins| == i
        invariant forall k :: 0 <= k < i ==> dispatcher.world.ScannedAt(begins[k], c) && dispatcher.world.PutBack(begins[k], c)
        invariant forall k :: 0 <= k < i ==> dispatcher.world.LongPast(begins[k])
        invariant forall k, l :: 0 <= k < l < i ==> dispatcher.world.FarApart(begins[k], begins[l])
      {
        var b := Pass(c, begins);
        begins := begins + [b];
      }
    }

    /** One pass and the sleep after it; what earlier passes put back stays so. */
    method Pass(ghost c: nat, ghost begins: seq<nat>) returns (ghost b: nat)
      requires dispatcher.world.Valid() && dispatcher.world.Stands(c, Sleeping) && !dispatcher.world.alone
      requires forall k :: 0 <= k < |begins| ==> dispatcher.world.PutBack(begins[k], c)
      modifies dispatcher.world, dispatcher.world.graph
      ensures dispatcher.world.Went(c, Sleeping)
      ensures dispatcher.world.ScannedAt(b, c) && dispatcher.world.PutBack(b, c)
      ensures dispatcher.world.LongPast(b)
      ensures forall k :: 0 <= k < |begins| ==> begins[k] < b && dispatcher.world.PutBack(begins[k], c)
    {
      hide World.Valid, PoppedBy, World.ListsOverdue;
      b := Reap(c);
      Rested(c, b);
      dispatcher.world.PutBackLasts(c);
    }

    method Rested(ghost c: nat, ghost b: nat)
      requires dispatcher.world.Valid() && dispatcher.world.Stands(c, Sleeping) && dispatcher.world.PutBack(b, c)
      modifies dispatcher.world, dispatcher.world.graph
      ensures dispatcher.world.Went(c, Sleeping) && dispatcher.world.PutBack(b, c)
      ensures old(dispatcher.world.clock) + MAX_INFLIGHT <= dispatcher.world.clock
    {
      hide World.Valid, PoppedBy;
      dispatcher.world.Sleep(c, MAX_INFLIGHT);
      dispatcher.world.PutBackLasts(c);
    }

    // ---- a whole crawl by one worker ----

    /** The seeding script (bin/add_seeds.py, bin/add_seeds_by_actor_id.py). */
    method AddSeeds(ghost c: nat, seeds: seq<Job>)
      requires dispatcher.world.Valid() && dispatcher.world.Stands(c, Working(Option.None, EnqueueAll(seeds)))
      modifies dispatcher.world, dispatcher.world.graph
      ensures dispatcher.world.Went(c, Stopped) && dispatcher.world.PopsNothing(c)
      ensures forall j :: j in seeds ==> Hash(dispatcher.world.env, j) in dispatcher.world.at.store.seen
    {
      hide World.Valid, PoppedBy, Hash;
      ghost var todo := EnqueueAll(seeds);
      assert seeds[0..] == seeds;
      for i := 0 to |seeds|
        invariant dispatcher.world.Went(c, Working(Option.None, todo)) && dispatcher.world.PopsNothing(c)
        invariant forall k :: 0 <= k < i ==> Hash(dispatcher.world.env, seeds[k]) in dispatcher.world.at.store.seen
        invariant todo == EnqueueAll(seeds[i..])
      {
        SeedsFrom(seeds, i);
        todo := EnqueueAll(seeds[i + 1..]);
        var added := dispatcher.EnqueueIfUnseen(c, seeds[i], Option.None, todo);
      }
      EndSeeding(c);
    }

    lemma {:induction false} SeedsFrom(seeds: seq<Job>, i: nat)
      requires i < |seeds|
      ensures EnqueueAll(seeds[i..]) == [Action.Enqueue(seeds[i])] + EnqueueAll(seeds[i + 1..])
    {
    }

    ghost method EndSeeding(c: nat)
      requires dispatcher.world.Valid() && dispatcher.world.Stands(c, Working(Option.None, []))
      modifies dispatcher.world`at, dispatcher.world`run, dispatcher.world`steps, dispatcher.world`times
      ensures dispatcher.world.Went(c, Stopped) && dispatcher.world.PopsNothing(c)
    {
      hide Leads, Clocked, PoppedBy, Represents, WellFormed, Agrees;
      var s := dispatcher.world.at;
      dispatcher.world.Took(c, s.(pcs := s.pcs[c := Stopped]), SeedsDone(c));
    }

    /** Seeds first, then one worker until the queue is empty: the crawl ends, and it
        was breadth-first. */
    method Crawl(seeds: seq<Job>, ghost universe: set<nat>)
      requires Wired() && dispatcher.world.Valid() && dispatcher.world.alone && !dispatcher.stopped
      requires dispatcher.world.at == dispatcher.world.start == SoloStart(seeds)
      requires Fair(dispatcher.world.env, seeds, universe)
      modifies dispatcher.world, dispatcher.world.graph
      ensures dispatcher.world.Valid()
      ensures dispatcher.world.store.queue == {} && dispatcher.world.store.inflight == map[]
      ensures HandlesAll(dispatcher.world.env, SeedSet(seeds), dispatcher.world.at)
      ensures HandlesOnly(dispatcher.world.env, SeedSet(seeds), dispatcher.world.at)
      ensures HandlesAtMinimum(dispatcher.world.env, SeedSet(seeds), dispatcher.world.at)
      ensures forall a, d :: Actor(a, d) in dispatcher.world.at.completed ==>
                Prop(dispatcher.world.graph.tables, a, DEPTH) == Some(Int(d))
    {
      hide Leads, Clocked, PoppedBy, Represents, WellFormed, Agrees, HandlesAll, HandlesOnly, HandlesAtMinimum, NoCollisions, ClosedUniverse, SeedJobs, CompletedDepths;
      var world := dispatcher.world;
      AddSeeds(SEEDER, seeds);
      Drain(seeds, universe);
      CrawlOutcome(world.env, seeds, world.at, world.run, world.steps);
      DepthsRecorded(world.graph.tables, world.at);
    }

    method Drain(seeds: seq<Job>, ghost universe: set<nat>)
      requires Wired() && dispatcher.world.Valid() && dispatcher.world.alone && !dispatcher.stopped
      requires dispatcher.world.start == SoloStart(seeds) && Fair(dispatcher.world.env, seeds, universe)
      requires dispatcher.world.Stands(WORKER, Idle) && SeedingOver(dispatcher.world.at)
      modifies dispatcher.world, dispatcher.world.graph
      ensures dispatcher.world.Valid() && dispatcher.world.store.queue == {}
      ensures dispatcher.world.Stands(WORKER, Idle) && SeedingOver(dispatcher.world.at)
    {
      hide Leads, Clocked, PoppedBy, Represents, WellFormed, Agrees, Fair, SoloStart;
      PopsFit(dispatcher.world.env, seeds, universe, dispatcher.world.at, dispatcher.world.run, dispatcher.world.steps);
      while true
        invariant dispatcher.world.Valid() && dispatcher.world.Stands(WORKER, Idle) && SeedingOver(dispatcher.world.at)
        invariant |dispatcher.world.at.popped| <= |universe|
        decreases |universe| - |dispatcher.world.at.popped|
      {
        var got := Round(WORKER);
        PopsFit(dispatcher.world.env, seeds, universe, dispatcher.world.at, dispatcher.world.run, dispatcher.world.steps);
        if got.Blocked? {
          break;
        }
      }
    }
  }

  const SEEDER: nat := 1

  function SeedSet(seeds: seq<Job>): set<Job> {
    set j | j in seeds
  }

  /** An empty store, one idle worker, one script about to enqueue the seeds. */
  function SoloStart(seeds: seq<Job>): State {
    State(EMPTY_STORE, EMPTY_GRAPH, map[WORKER := Idle, SEEDER := Working(Option.None, EnqueueAll(seeds))], {}, [])
  }

  /** What the breadth-first promise asks of the surroundings: seeds of the right
      kind, depths that fit two digits, no hash collisions, a finite web. */
  ghost predicate Fair(env: Env, seeds: seq<Job>, universe: set<nat>) {
    && SeedJobs(SeedSet(seeds)) && env.maxDepth <= DEEPEST_LIMIT && NoCollisions(env, SeedSet(seeds))
    && ClosedUniverse(env, universe) && forall j :: j in seeds ==> Hash(env, j) in universe
  }

  lemma {:induction false} SoloStartIsInitial(seeds: seq<Job>)
    ensures SoloInitial(SoloStart(seeds), SeedSet(seeds))
  {
    var s := SoloStart(seeds);
    forall j | j in SeedSet(seeds) ensures j in Targets(TodoOf(s.pcs[SEEDER])) {
      var i :| 0 <= i < |seeds| && seeds[i] == j;
      assert EnqueueAll(seeds)[i] == Enqueue(seeds[i]);
    }
  }

  lemma {:induction false} PopsFit(env: Env, seeds: seq<Job>, universe: set<nat>, s: State, run: seq<State>, steps: seq<Step>)
    requires Leads(env, SoloStart(seeds), s, true, run, steps) && Fair(env, seeds, universe)
    ensures |s.popped| <= |universe|
  {
    SoloStartIsInitial(seeds);
    PopsBounded(env, universe, run, steps, SeedSet(seeds), |steps|);
  }

  lemma {:induction false} CrawlOutcome(env: Env, seeds: seq<Job>, s: State, run: seq<State>, steps: seq<Step>)
    requires Leads(env, SoloStart(seeds), s, true, run, steps) && s.store.queue == {}
    requires WORKER in s.pcs && s.pcs[WORKER] == Idle && SeedingOver(s)
    requires SeedJobs(SeedSet(seeds)) && env.maxDepth <= DEEPEST_LIMIT && NoCollisions(env, SeedSet(seeds))
    ensures s.store.inflight == map[]
    ensures HandlesAll(env, SeedSet(seeds), s) && HandlesOnly(env, SeedSet(seeds), s)
    ensures HandlesAtMinimum(env, SeedSet(seeds), s) && CompletedDepths(s)
  {
    SoloStartIsInitial(seeds);
    RunOnce(env, run, steps, SeedSet(seeds), |steps|);
    IdleIsQuiet(env, s);
    CrawlIsBreadthFirst(env, SeedSet(seeds), run, steps);
  }

  lemma {:induction false} DepthsRecorded(t: Tables, s: State)
    requires Represents(t, s.graph) && CompletedDepths(s)
    ensures forall a, d :: Actor(a, d) in s.completed ==> Prop(t, a, DEPTH) == Some(Int(d))
  {
  }

  lemma {:induction false} IdleIsQuiet(env: Env, s: State)
    requires Once(env, s) && s.store.queue == {} && WORKER in s.pcs && s.pcs[WORKER] == Idle && SeedingOver(s)
    ensures Quiet(s)
  {
    assert s.store.inflight.Keys == {};
  }

  const DEFAULT_MAX_CACHE_SIZE: nat := 200_000

  /** The same from nothing but the surroundings: empty Redis, empty tables, the
      seeds, one worker. */
  method CrawlFromSeeds(env: Env, iso: int -> string, clock: int, seeds: seq<Job>, ghost universe: set<nat>)
    returns (store: Store, tables: Tables, ghost s: State)
    requires Codec.Faithful(env.json) && Fair(env, seeds, universe)
    ensures s.store == store && store.queue == {} && store.inflight == map[]
    ensures HandlesAll(env, SeedSet(seeds), s) && HandlesOnly(env, SeedSet(seeds), s) && HandlesAtMinimum(env, SeedSet(seeds), s)
    ensures forall a, d :: Actor(a, d) in s.completed ==> Prop(tables, a, DEPTH) == Some(Int(d))
  {
    hide Leads, Clocked, PoppedBy, Represents, Agrees, HandlesAll, HandlesOnly, HandlesAtMinimum, Fair;
    EmptyRepresents();
    var graph := new DatabaseGraph(EMPTY, DEFAULT_MAX_CACHE_SIZE);
    var world := new World(env, iso, clock, graph, SoloStart(seeds), true);
    var dispatcher := new Dispatcher(world);
    var crawler := new Crawler(dispatcher);
    crawler.Crawl(seeds, universe);
    store, tables, s := world.store, graph.tables, world.at;
  }
}
