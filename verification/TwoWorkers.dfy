/**
 Why the promises for one worker are for one worker: finished crawls by two workers or
 more, from two seeds, with no lease expired, no crash and no hash collision.

 One seed leads to an actor in one hop, the other in two. The worker that takes the short
 way is slow, another one passes it: the actor ends up on record two hops from the seeds,
 and with a limit of two its followers are never walked, so that what they lead to is
 not handled at all.
 */
module TwoWorkers {
  import opened Options
  import opened Jobs
  import opened Codec
  import opened Web
  import opened Protocol
  import opened ExactlyOnce
  import opened DepthSoundness
  import opened MinimumDepth
  import opened Coverage
  import opened QueueOrder
  import opened Hypotheses
  import opened Visits

  const FAST: nat := 0
  const SLOW: nat := 1

  function Detour(url: string): Fetch {
    match url
    case "a" => Followed("p")
    case "p" => Listing("y")
    case "y" => Followed("r")
    case "r" => Listing("x")
    case "bb" => Followed("q")
    case "q" => Listing("x")
    case "x" => Followed("w")
    case "w" => Listing("z")
    case "z" => Document([])
    case _ => HttpStatus(404)
  }

  ghost function DetourWeb(limit: int): Env {
    Env(Detour, (handle: string) => None, limit, Numbering, (id: string) => |id| % 0x1_0000_0000, JsonText(Write, Read))
  }

  const A := Actor("a", 0)
  const P := Collection("p", "a", Followers, 0)
  const Y := Actor("y", 1)
  const R := Collection("r", "y", Followers, 1)
  const X := Actor("x", 2)
  const W := Collection("w", "x", Followers, 2)
  const Z := Actor("z", 3)
  const B := Actor("bb", 0)
  const Q := Collection("q", "bb", Followers, 0)

  const SEEDS := [A, B]

  function Upto(n: nat): (numbers: set<nat>)
    ensures forall c: nat :: c in numbers <==> c < n
  {
    if n == 0 then {} else Upto(n - 1) + {n - 1}
  }

  /** Workers 0 to `n - 1` and the seeding script `n`. */
  function Crew(n: nat, slow: Pc, script: Pc): map<nat, Pc> {
    (map c | c in Upto(n) :: if c == SLOW then slow else Idle)[n := script]
  }

  lemma {:induction false} CrewIs(n: nat, slow: Pc, next: Pc)
    requires 2 <= n
    ensures var crew := Crew(n, slow, Stopped);
            FAST in crew && crew[FAST] == Idle && SLOW in crew && crew[SLOW] == slow && crew[SLOW := next] == Crew(n, next, Stopped)
  {
  }

  function Start(n: nat): State {
    State(EMPTY_STORE, EMPTY_GRAPH, Crew(n, Idle, Working(None, EnqueueAll(SEEDS))), {}, [])
  }

  ghost function In(j: Job): Member {
    MemberOf(j, DetourWeb(0).crc, Noon())
  }

  /** Where the crawl stands: the slow worker, the queue, the jobs seen and completed, the graph. */
  ghost predicate At(n: nat, s: State, slow: Pc, queue: set<Member>, seen: seq<Job>, completed: set<Job>,
                     depth: map<string, int>, fetched: set<string>) {
    && s.pcs == Crew(n, slow, Stopped)
    && s.store.queue == queue && s.store.seen == Hashes(DetourWeb(0), seen) && s.store.failed == {}
    && s.store.inflight.Keys == (if slow == Idle then {} else {B})
    && s.completed == completed && s.graph.depth == depth && s.graph.fetched == fetched
  }

  lemma {:induction false} FirstOfOne(limit: int, m: Member)
    ensures IsFirst(m, {m}, DetourWeb(limit).json)
  {
  }

  lemma {:induction false} FirstOfTwo(limit: int)
    ensures IsFirst(In(A), {In(A), In(B)}, DetourWeb(limit).json) && In(A) != In(B)
    ensures IsFirst(In(B), {In(B), In(P)}, DetourWeb(limit).json) && In(B) != In(P)
  {
    hide Numbering, Detour, Write, Read, Noon;
    assert |Id(A)| == 7 && |Id(B)| == 8;
  }

  /** The hash of a job is the same under every limit. */
  lemma {:induction false} OneHash(limit: int)
    ensures forall k :: Hash(DetourWeb(limit), k) == Hash(DetourWeb(0), k)
  {
    hide Numbering, Detour, Write, Read;
  }

  /** A job of a resource not among those seen is new. */
  lemma {:induction false} NewAmong(limit: int, seen: seq<Job>, j: Job)
    requires forall k :: k in seen ==> !SameResource(j, k)
    ensures Hash(DetourWeb(limit), j) !in Hashes(DetourWeb(0), seen)
    ensures Hashes(DetourWeb(0), seen) + Hashes(DetourWeb(limit), [j]) == Hashes(DetourWeb(0), seen + [j])
    ensures AllNew(DetourWeb(limit), Hashes(DetourWeb(0), seen), [j])
  {
    hide Numbering, Detour, Write, Read;
    OneHash(limit);
    forall k | k in seen ensures Hash(DetourWeb(limit), j) != Hash(DetourWeb(0), k) {
      if Hash(DetourWeb(limit), j) == Hash(DetourWeb(0), k) {
        NumberingTells(Id(j), Id(k));
        IdIdentifiesResource(j, k);
      }
    }
    assert [j][1..] == [];
    assert j in [j];
  }

  lemma {:induction false} InQueue(limit: int, j: Job)
    ensures In(j).job == j && MembersOf(DetourWeb(limit), [j]) == {In(j)} && MembersOf(DetourWeb(limit), []) == {}
    ensures Hashes(DetourWeb(limit), []) == {}
  {
    hide Noon;
    assert j in [j];
  }

  lemma {:induction false} Plans(limit: int)
    requires 2 <= limit
    ensures var env := DetourWeb(limit);
      && Plan(env, A) == [Ensure(["a"])] + ([StopIfFetched("a")] + (EnqueueAll([P]) + [SaveActor("a", 0, true)]))
      && Plan(env, Y) == [Ensure(["y"])] + ([StopIfFetched("y")] + (EnqueueAll([R]) + [SaveActor("y", 1, true)]))
      && Plan(env, X) == [Ensure(["x"])] + ([StopIfFetched("x")] + (EnqueueAll([W]) + [SaveActor("x", 2, true)]))
      && Plan(env, B) == [Ensure(["bb"])] + ([StopIfFetched("bb")] + (EnqueueAll([Q]) + [SaveActor("bb", 0, true)]))
      && Plan(env, P) == [Ensure(["a"])] + Walk(["y"], "a", Followers, 0)
      && Plan(env, R) == [Ensure(["y"])] + Walk(["x"], "y", Followers, 1)
      && Plan(env, Q) == [Ensure(["bb"])] + Walk(["x"], "bb", Followers, 0)
  {
    hide Numbering, Write, Read, Plan, Walk;
    var env := DetourWeb(limit);
    FollowedLeads(env, "a", 0, "p");
    FollowedLeads(env, "y", 1, "r");
    FollowedLeads(env, "x", 2, "w");
    FollowedLeads(env, "bb", 0, "q");
    ListingLeads(env, "p", "a", Followers, 0, "y");
    ListingLeads(env, "r", "y", Followers, 1, "x");
    ListingLeads(env, "q", "bb", Followers, 0, "x");
  }

  lemma {:induction false} PlanW(limit: int)
    requires 2 <= limit
    ensures Plan(DetourWeb(limit), W) == if limit == 2 then [Ensure(["x"])] else [Ensure(["x"])] + Walk(["z"], "x", Followers, 2)
  {
    hide Numbering, Write, Read, Walk;
    if limit > 2 {
      ListingLeads(DetourWeb(limit), "w", "x", Followers, 2, "z");
    }
  }

  lemma {:induction false} PlanZ(limit: int)
    ensures Plan(DetourWeb(limit), Z) == [Ensure(["z"])] + ([StopIfFetched("z")] + (EnqueueAll([]) + [SaveActor("z", 3, true)]))
  {
    hide Numbering, Write, Read;
    assert CollectionJobs([], "z", 3) == [];
  }

  /** The slow worker has leased its seed and goes no further. */
  ghost function Holding(limit: int): Pc {
    Working(Some(B), Plan(DetourWeb(limit), B))
  }

  lemma {:induction false} TwoNew(limit: int)
    ensures AllNew(DetourWeb(limit), {}, SEEDS)
    ensures MembersOf(DetourWeb(limit), SEEDS) == {In(A), In(B)} && Hashes(DetourWeb(limit), SEEDS) == Hashes(DetourWeb(0), [A, B])
  {
    hide Numbering, Detour, Write, Read, Noon;
    NewAmong(limit, [A], B);
    OneHash(limit);
    assert Hashes(DetourWeb(0), [A]) == {} + {Hash(DetourWeb(limit), A)};
    assert SEEDS[1..] == [B] && [B][1..] == [] && SEEDS[0] == A && SEEDS[1] == B;
    assert [A][0] == A;
  }

  lemma {:induction false} Seeded2(n: nat, limit: int) returns (s: State)
    requires 2 <= n
    ensures Comes(DetourWeb(limit), Start(n), s, false)
    ensures At(n, s, Idle, {In(A), In(B)}, [A, B], {}, map[], {})
  {
    hide Numbering, Write, Read, Detour, Plan, Comes, IsFirst, Hash, Hashes, MembersOf, MemberOf, AllNew, EnqueueAll;
    var env, start := DetourWeb(limit), Start(n);
    ComesItself(env, start, false);
    TwoNew(limit);
    s := Seeds(env, start, start, n, SEEDS, false);
    assert s.pcs == Crew(n, Idle, Stopped);
    assert s.store.queue == {In(A), In(B)};
    assert s.store.seen == Hashes(DetourWeb(0), [A, B]);
  }

  // A fast worker visits one seed, the slow one takes the other.

  lemma {:induction false} VisitA(n: nat, limit: int, s: State) returns (s': State)
    requires 2 <= n && 2 <= limit
    requires Comes(DetourWeb(limit), Start(n), s, false) && At(n, s, Idle, {In(A), In(B)}, [A, B], {}, map[], {})
    ensures Comes(DetourWeb(limit), Start(n), s', false)
    ensures At(n, s', Idle, {In(B), In(P)}, [A, B, P], {A}, map["a" := 0], {"a"})
  {
    hide Numbering, Write, Read, Detour, Plan, Comes, IsFirst, Hash, Hashes, MembersOf, MemberOf, AllNew, EnqueueAll, Walk, Follows, Crew, Noon;
    var env, start := DetourWeb(limit), Start(n);
    CrewIs(n, Idle, Idle);
    FirstOfTwo(limit);
    InQueue(limit, A);
    InQueue(limit, P);
    Plans(limit);
    NewAmong(limit, [A, B], P);
    assert [A, B] + [P] == [A, B, P];
    s' := VisitsActor(env, start, s, FAST, In(A), [P], true, false);
    assert s'.store.queue == {In(B), In(P)} && s'.graph.depth == map["a" := 0];
  }

  lemma {:induction false} TakeB(n: nat, limit: int, s: State) returns (s': State)
    requires 2 <= n && 2 <= limit
    requires Comes(DetourWeb(limit), Start(n), s, false)
    requires At(n, s, Idle, {In(B), In(P)}, [A, B, P], {A}, map["a" := 0], {"a"})
    ensures Comes(DetourWeb(limit), Start(n), s', false)
    ensures At(n, s', Holding(limit), {In(P)}, [A, B, P], {A}, map["a" := 0], {"a"})
  {
    hide Numbering, Write, Read, Detour, Plan, Comes, IsFirst, Hash, Hashes, MembersOf, MemberOf, AllNew, EnqueueAll, Walk, Follows, Crew, Noon;
    var env, start := DetourWeb(limit), Start(n);
    CrewIs(n, Idle, Holding(limit));
    FirstOfTwo(limit);
    InQueue(limit, B);
    s' := Takes(env, start, s, SLOW, In(B), false);
    assert s'.store.queue == {In(P)} && s'.store.inflight.Keys == {B};
  }

  // The fast worker goes the long way, and is there first.

  lemma {:induction false} VisitP(n: nat, limit: int, s: State) returns (s': State)
    requires 2 <= n && 2 <= limit
    requires Comes(DetourWeb(limit), Start(n), s, false) && At(n, s, Holding(limit), {In(P)}, [A, B, P], {A}, map["a" := 0], {"a"})
    ensures Comes(DetourWeb(limit), Start(n), s', false)
    ensures At(n, s', Holding(limit), {In(Y)}, [A, B, P, Y], {A, P}, map["a" := 0, "y" := 1], {"a"})
  {
    hide Numbering, Write, Read, Detour, Plan, Comes, IsFirst, Hash, Hashes, MembersOf, MemberOf, AllNew, EnqueueAll, Walk, Follows, Crew, Noon;
    var env, start := DetourWeb(limit), Start(n);
    CrewIs(n, Holding(limit), Idle);
    Plans(limit);
    InQueue(limit, P);
    FirstOfOne(limit, In(P));
    InQueue(limit, Y);
    NewAmong(limit, [A, B, P], Y);
    assert [A, B, P] + [Y] == [A, B, P, Y];
    s' := VisitsCollection(env, start, s, FAST, In(P), "y", false);
    assert s'.store.queue == {In(Y)} && s'.graph.depth == map["a" := 0, "y" := 1];
    assert s'.completed == {A, P};
  }

  lemma {:induction false} VisitY(n: nat, limit: int, s: State) returns (s': State)
    requires 2 <= n && 2 <= limit
    requires Comes(DetourWeb(limit), Start(n), s, false) && At(n, s, Holding(limit), {In(Y)}, [A, B, P, Y], {A, P}, map["a" := 0, "y" := 1], {"a"})
    ensures Comes(DetourWeb(limit), Start(n), s', false)
    ensures At(n, s', Holding(limit), {In(R)}, [A, B, P, Y, R], {A, P, Y}, map["a" := 0, "y" := 1], {"a", "y"})
  {
    hide Numbering, Write, Read, Detour, Plan, Comes, IsFirst, Hash, Hashes, MembersOf, MemberOf, AllNew, EnqueueAll, Walk, Follows, Crew, Noon;
    var env, start := DetourWeb(limit), Start(n);
    CrewIs(n, Holding(limit), Idle);
    Plans(limit);
    InQueue(limit, Y);
    FirstOfOne(limit, In(Y));
    InQueue(limit, R);
    NewAmong(limit, [A, B, P, Y], R);
    assert [A, B, P, Y] + [R] == [A, B, P, Y, R];
    s' := VisitsActor(env, start, s, FAST, In(Y), [R], true, false);
    assert s'.store.queue == {In(R)} && s'.graph.depth == map["a" := 0, "y" := 1];
    assert s'.completed == {A, P, Y};
  }

  lemma {:induction false} VisitR(n: nat, limit: int, s: State) returns (s': State)
    requires 2 <= n && 2 <= limit
    requires Comes(DetourWeb(limit), Start(n), s, false) && At(n, s, Holding(limit), {In(R)}, [A, B, P, Y, R], {A, P, Y}, map["a" := 0, "y" := 1], {"a", "y"})
    ensures Comes(DetourWeb(limit), Start(n), s', false)
    ensures At(n, s', Holding(limit), {In(X)}, [A, B, P, Y, R, X], {A, P, Y, R}, map["a" := 0, "y" := 1, "x" := 2], {"a", "y"})
  {
    hide Numbering, Write, Read, Detour, Plan, Comes, IsFirst, Hash, Hashes, MembersOf, MemberOf, AllNew, EnqueueAll, Walk, Follows, Crew, Noon;
    var env, start := DetourWeb(limit), Start(n);
    CrewIs(n, Holding(limit), Idle);
    Plans(limit);
    InQueue(limit, R);
    FirstOfOne(limit, In(R));
    InQueue(limit, X);
    NewAmong(limit, [A, B, P, Y, R], X);
    assert [A, B, P, Y, R] + [X] == [A, B, P, Y, R, X];
    s' := VisitsCollection(env, start, s, FAST, In(R), "x", false);
    assert s'.store.queue == {In(X)} && s'.graph.depth == map["a" := 0, "y" := 1, "x" := 2];
    assert s'.completed == {A, P, Y, R};
  }

  lemma {:induction false} VisitX(n: nat, limit: int, s: State) returns (s': State)
    requires 2 <= n && 2 <= limit
    requires Comes(DetourWeb(limit), Start(n), s, false) && At(n, s, Holding(limit), {In(X)}, [A, B, P, Y, R, X], {A, P, Y, R}, map["a" := 0, "y" := 1, "x" := 2], {"a", "y"})
    ensures Comes(DetourWeb(limit), Start(n), s', false)
    ensures At(n, s', Holding(limit), {In(W)}, [A, B, P, Y, R, X, W], {A, P, Y, R, X}, map["a" := 0, "y" := 1, "x" := 2], {"a", "y", "x"})
  {
    hide Numbering, Write, Read, Detour, Plan, Comes, IsFirst, Hash, Hashes, MembersOf, MemberOf, AllNew, EnqueueAll, Walk, Follows, Crew, Noon;
    var env, start := DetourWeb(limit), Start(n);
    CrewIs(n, Holding(limit), Idle);
    Plans(limit);
    InQueue(limit, X);
    FirstOfOne(limit, In(X));
    InQueue(limit, W);
    NewAmong(limit, [A, B, P, Y, R, X], W);
    assert [A, B, P, Y, R, X] + [W] == [A, B, P, Y, R, X, W];
    s' := VisitsActor(env, start, s, FAST, In(X), [W], true, false);
    assert s'.store.queue == {In(W)} && s'.graph.depth == map["a" := 0, "y" := 1, "x" := 2];
    assert s'.completed == {A, P, Y, R, X};
  }

  lemma {:induction false} VisitW(n: nat, limit: int, s: State) returns (s': State)
    requires 2 <= n && 2 < limit
    requires Comes(DetourWeb(limit), Start(n), s, false) && At(n, s, Holding(limit), {In(W)}, [A, B, P, Y, R, X, W], {A, P, Y, R, X}, map["a" := 0, "y" := 1, "x" := 2], {"a", "y", "x"})
    ensures Comes(DetourWeb(limit), Start(n), s', false)
    ensures At(n, s', Holding(limit), {In(Z)}, [A, B, P, Y, R, X, W, Z], {A, P, Y, R, X, W}, map["a" := 0, "y" := 1, "x" := 2, "z" := 3], {"a", "y", "x"})
  {
    hide Numbering, Write, Read, Detour, Plan, Comes, IsFirst, Hash, Hashes, MembersOf, MemberOf, AllNew, EnqueueAll, Walk, Follows, Crew, Noon;
    var env, start := DetourWeb(limit), Start(n);
    CrewIs(n, Holding(limit), Idle);
    PlanW(limit);
    InQueue(limit, W);
    FirstOfOne(limit, In(W));
    InQueue(limit, Z);
    NewAmong(limit, [A, B, P, Y, R, X, W], Z);
    assert [A, B, P, Y, R, X, W] + [Z] == [A, B, P, Y, R, X, W, Z];
    s' := VisitsCollection(env, start, s, FAST, In(W), "z", false);
    assert s'.store.queue == {In(Z)} && s'.graph.depth == map["a" := 0, "y" := 1, "x" := 2, "z" := 3];
    assert s'.completed == {A, P, Y, R, X, W};
  }

  lemma {:induction false} VisitZ(n: nat, limit: int, s: State) returns (s': State)
    requires 2 <= n && 2 <= limit
    requires Comes(DetourWeb(limit), Start(n), s, false) && At(n, s, Holding(limit), {In(Z)}, [A, B, P, Y, R, X, W, Z], {A, P, Y, R, X, W}, map["a" := 0, "y" := 1, "x" := 2, "z" := 3], {"a", "y", "x"})
    ensures Comes(DetourWeb(limit), Start(n), s', false)
    ensures At(n, s', Holding(limit), {}, [A, B, P, Y, R, X, W, Z], {A, P, Y, R, X, W, Z}, map["a" := 0, "y" := 1, "x" := 2, "z" := 3], {"a", "y", "x", "z"})
  {
    hide Numbering, Write, Read, Detour, Plan, Comes, IsFirst, Hash, Hashes, MembersOf, MemberOf, AllNew, EnqueueAll, Walk, Follows, Crew, Noon;
    var env, start := DetourWeb(limit), Start(n);
    CrewIs(n, Holding(limit), Idle);
    PlanZ(limit);
    InQueue(limit, Z);
    FirstOfOne(limit, In(Z));
    NothingPut(env, ZRem(s.store, In(Z)));
    s' := VisitsActor(env, start, s, FAST, In(Z), [], true, false);
    assert s'.store.queue == {} && s'.graph.depth == map["a" := 0, "y" := 1, "x" := 2, "z" := 3];
    assert s'.completed == {A, P, Y, R, X, W, Z};
  }

  /** On the limit the collection is not walked. */
  lemma {:induction false} VisitWOnLimit(n: nat, s: State) returns (s': State)
    requires 2 <= n
    requires Comes(DetourWeb(2), Start(n), s, false)
    requires At(n, s, Holding(2), {In(W)}, [A, B, P, Y, R, X, W], {A, P, Y, R, X}, map["a" := 0, "y" := 1, "x" := 2], {"a", "y", "x"})
    ensures Comes(DetourWeb(2), Start(n), s', false)
    ensures At(n, s', Holding(2), {}, [A, B, P, Y, R, X, W], {A, P, Y, R, X, W}, map["a" := 0, "y" := 1, "x" := 2], {"a", "y", "x"})
  {
    hide Numbering, Write, Read, Detour, Plan, Comes, IsFirst, Hash, Hashes, MembersOf, MemberOf, AllNew, EnqueueAll, Walk, Follows, Crew, Noon;
    CrewIs(n, Holding(2), Idle);
    PlanW(2);
    InQueue(2, W);
    FirstOfOne(2, In(W));
    s' := VisitsNothing(DetourWeb(2), Start(n), s, FAST, In(W), "x", false);
    assert s'.store.queue == {} && s'.completed == {A, P, Y, R, X, W};
  }

  // The slow worker comes too late.

  /** Nothing is left but the job the slow worker holds. */
  ghost predicate Waits(n: nat, limit: int, s: State, seen: seq<Job>, completed: set<Job>, depth: map<string, int>, fetched: set<string>) {
    && At(n, s, Holding(limit), {}, seen, completed, depth, fetched)
    && (forall k :: k in seen ==> !SameResource(Q, k))
    && "bb" !in fetched && "x" in fetched && "x" in depth && depth["x"] == 2
  }

  lemma {:induction false} ResumeB(n: nat, limit: int, s: State, seen: seq<Job>, completed: set<Job>, depth: map<string, int>, fetched: set<string>)
    returns (s': State)
    requires 2 <= n && 2 <= limit
    requires Comes(DetourWeb(limit), Start(n), s, false) && Waits(n, limit, s, seen, completed, depth, fetched)
    ensures Comes(DetourWeb(limit), Start(n), s', false)
    ensures At(n, s', Idle, {In(Q)}, seen + [Q], completed + {B}, depth["bb" := 0], fetched + {"bb"})
  {
    hide Numbering, Write, Read, Detour, Plan, Comes, IsFirst, Hash, Hashes, MembersOf, MemberOf, AllNew, EnqueueAll, Walk, Follows, Crew, Noon;
    var env, start := DetourWeb(limit), Start(n);
    CrewIs(n, Holding(limit), Idle);
    Plans(limit);
    InQueue(limit, Q);
    NewAmong(limit, seen, Q);
    s' := ResumesActor(env, start, s, SLOW, B, [Q], true, false);
    assert s'.store.queue == {In(Q)} && s'.store.inflight.Keys == {};
    assert s'.pcs == Crew(n, Idle, Stopped);
  }

  lemma {:induction false} VisitQ(n: nat, limit: int, s: State, seen: seq<Job>, completed: set<Job>, depth: map<string, int>, fetched: set<string>)
    returns (s': State)
    requires 2 <= n && 2 <= limit && "x" in depth && "x" in fetched
    requires Comes(DetourWeb(limit), Start(n), s, false) && At(n, s, Idle, {In(Q)}, seen, completed, depth, fetched)
    ensures Comes(DetourWeb(limit), Start(n), s', false)
    ensures At(n, s', Idle, {}, seen, completed + {Q}, depth, fetched)
  {
    hide Numbering, Write, Read, Detour, Plan, Comes, IsFirst, Hash, Hashes, MembersOf, MemberOf, AllNew, EnqueueAll, Walk, Follows, Crew, Noon;
    var env, start := DetourWeb(limit), Start(n);
    CrewIs(n, Idle, Idle);
    Plans(limit);
    InQueue(limit, Q);
    FirstOfOne(limit, In(Q));
    NothingPut(env, ZRem(s.store, In(Q)));
    s' := VisitsCollection(env, start, s, SLOW, In(Q), "x", false);
    assert s'.store.queue == {};
  }

  /** How the crawl ends. */
  ghost predicate Ended(n: nat, limit: int, s: State) {
    && s.pcs == Crew(n, Idle, Stopped) && s.store.queue == {} && s.store.failed == {}
    && s.completed == {A, P, Y, R, X, W, B, Q} + (if limit == 2 then {} else {Z})
    && "x" in s.graph.depth && s.graph.depth["x"] == 2
  }

  lemma {:induction false} Ends(n: nat, limit: int) returns (s: State)
    requires 2 <= n && 2 <= limit
    ensures Comes(DetourWeb(limit), Start(n), s, false) && Ended(n, limit, s)
  {
    hide Comes, Numbering, Write, Read, Detour, Plan, Hash, Hashes, MemberOf, Crew, At;
    s := Seeded2(n, limit);
    s := VisitA(n, limit, s);
    s := TakeB(n, limit, s);
    s := VisitP(n, limit, s);
    s := VisitY(n, limit, s);
    s := VisitR(n, limit, s);
    s := VisitX(n, limit, s);
    if limit == 2 {
      s := VisitWOnLimit(n, s);
      s := Finish(n, limit, s, [A, B, P, Y, R, X, W], {A, P, Y, R, X, W}, map["a" := 0, "y" := 1, "x" := 2], {"a", "y", "x"});
    } else {
      s := VisitW(n, limit, s);
      s := VisitZ(n, limit, s);
      s := Finish(n, limit, s, [A, B, P, Y, R, X, W, Z], {A, P, Y, R, X, W, Z}, map["a" := 0, "y" := 1, "x" := 2, "z" := 3], {"a", "y", "x", "z"});
    }
  }

  lemma {:induction false} Finish(n: nat, limit: int, s: State, seen: seq<Job>, completed: set<Job>, depth: map<string, int>, fetched: set<string>)
    returns (s': State)
    requires 2 <= n && 2 <= limit
    requires Comes(DetourWeb(limit), Start(n), s, false) && Waits(n, limit, s, seen, completed, depth, fetched)
    ensures Comes(DetourWeb(limit), Start(n), s', false)
    ensures s'.pcs == Crew(n, Idle, Stopped) && s'.store.queue == {} && s'.store.failed == {}
    ensures s'.completed == completed + {B, Q} && "x" in s'.graph.depth && s'.graph.depth["x"] == 2
  {
    hide Comes, Numbering, Write, Read, Detour, Plan, Hash, Hashes, MemberOf, Crew;
    s' := ResumeB(n, limit, s, seen, completed, depth, fetched);
    s' := VisitQ(n, limit, s', seen + [Q], completed + {B}, depth["bb" := 0], fetched + {"bb"});
  }

  // ---- what the web offers ----

  lemma {:induction false} ShortWay(limit: int)
    requires 2 <= limit
    ensures Discovered(DetourWeb(limit), {A, B}, Actor("x", 1)) && Discovered(DetourWeb(limit), {A, B}, Actor("z", 2))
  {
    hide Numbering, Write, Read, Successors, Plan, Discovered;
    var env, seeds := DetourWeb(limit), {A, B};
    SeedIsDiscovered(env, seeds, B);
    FollowedDiscovers(env, "bb", 0, "q");
    DiscoveredStep(env, seeds, B, Q);
    ListingDiscovers(env, "q", "bb", Followers, 0, "x");
    DiscoveredStep(env, seeds, Q, Actor("x", 1));
    FollowedDiscovers(env, "x", 1, "w");
    DiscoveredStep(env, seeds, Actor("x", 1), Collection("w", "x", Followers, 1));
    ListingDiscovers(env, "w", "x", Followers, 1, "z");
    DiscoveredStep(env, seeds, Collection("w", "x", Followers, 1), Actor("z", 2));
  }

  lemma {:induction false} DetourIsFair(n: nat, limit: int)
    ensures Seeded(Start(n), {A, B}) && SeedJobs({A, B}) && NoCollisions(DetourWeb(limit), {A, B})
    ensures forall id :: DetourWeb(limit).crc(id) < 0x1_0000_0000
  {
    hide Numbering, Detour, Write, Read;
    var env, pc := DetourWeb(limit), Working(None, EnqueueAll(SEEDS));
    assert Start(n).pcs[n] == pc;
    assert forall j :: j in SEEDS ==> j in {A, B};
    forall j | j in {A, B} ensures j in Targets(pc.todo) {
      assert EnqueueAll(SEEDS)[if j == A then 0 else 1] == Enqueue(j);
    }
    forall j, k | Hash(env, j) == Hash(env, k) ensures Id(j) == Id(k) {
      NumberingTells(Id(j), Id(k));
    }
  }

  /** `n` workers, all idle. */
  ghost predicate Workers(s: State, n: nat) {
    (forall c: nat :: c < n ==> c in s.pcs && s.pcs[c] == Idle) && forall c :: c in s.pcs && n <= c ==> s.pcs[c] != Idle
  }

  /** For every number of workers from two up and every depth limit from two up there is a
      finished crawl whose record is not the minimum; with a limit of two it has not even
      handled all that the web offers. */
  lemma {:induction false} TwoWorkersMissTheMinimum(n: nat, limit: int)
    returns (env: Env, seeds: set<Job>, run: seq<State>, steps: seq<Step>, a: string)
    requires 2 <= n && 2 <= limit
    ensures env.maxDepth == limit && IsRun(env, run, steps) && Seeded(run[0], seeds) && Workers(run[0], n)
    ensures NoReaping(steps) && NoCrash(steps) && Realistic(env, steps)
    ensures SeedJobs(seeds) && NoCollisions(env, seeds) && AtRest(run[|steps|])
    ensures Actor(a, 2) in run[|steps|].completed && a in run[|steps|].graph.depth && run[|steps|].graph.depth[a] == 2
    ensures Discovered(env, seeds, Actor(a, 1)) && !HandlesAtMinimum(env, seeds, run[|steps|])
    ensures limit == 2 ==> !HandlesAll(env, seeds, run[|steps|]) && !LimitLosesNothing(env, seeds, run[|steps|])
  {
    hide Comes, Numbering, Detour, Write, Read, Seeded, SeedJobs, NoCollisions, IsRun, Discovered, Stamped, EnqueueAll, LimitLosesNothing;
    env, seeds, a := DetourWeb(limit), {A, B}, "x";
    DetourIsFair(n, limit);
    var s := Ends(n, limit);
    run, steps := RunOf(env, Start(n), s, false);
    ShortWay(limit);
    assert Handled(s, X) && SameResource(X, Actor("x", 1));
    if limit == 2 {
      LeftOut(n, s);
      ManyWorkersCover(env, seeds, run, steps);
    }
  }

  lemma {:induction false} LeftOut(n: nat, s: State)
    requires Ended(n, 2, s) && Discovered(DetourWeb(2), {A, B}, Actor("z", 2))
    ensures !HandlesAll(DetourWeb(2), {A, B}, s)
  {
    hide Discovered, Crew, Detour, Numbering, Write, Read;
    assert forall h :: Handled(s, h) ==> !SameResource(h, Actor("z", 2));
  }
}
