/**
 Where the breadth-first promises end. The order of levels holds up to a depth limit of
 99 and the minimum depth up to 100, and no further: for every larger limit there is a
 web whose crawl, undisturbed and by one worker, pops a deeper job before a shallower
 one, and from 101 on a finished one that has not handled an actor at its minimum depth.
 */
module DepthLimits {
  import opened Options
  import opened JsonValues
  import opened Jobs
  import opened Codec
  import opened Web
  import opened Protocol
  import opened Closure
  import opened DepthSoundness
  import opened BreadthFirst
  import opened MinimumDepth
  import opened QueueOrder
  import opened Hypotheses
  import opened Visits
  import opened Lines

  const F := Collection("f", Name('a', LAST), Followers, LAST)
  const G := Collection("gg", Name('a', LAST), Following, LAST)
  const Y := Actor("y", 100)
  const H := Collection("h", "y", Followers, 100)
  const Z := Actor("z", 102)

  function X(depth: int): Job {
    Actor("x", depth)
  }

  function W(depth: int): Job {
    Collection("w", "x", Followers, depth)
  }

  ghost function In(j: Job): Member {
    MemberOf(j, LineWeb(0).crc, Noon())
  }

  // ---- the plans of the jobs beyond the line ----

  lemma {:induction false} LastLeads(limit: int)
    ensures var a := Name('a', LAST);
            Plan(LineWeb(limit), LineActor(LAST)) ==
            [Ensure([a])] + ([StopIfFetched(a)] + (EnqueueAll([F, G]) + [SaveActor(a, LAST, true)]))
  {
    hide Strokes, Numbering, Write, Read;
    NameTells('a', LAST);
    var fields := [("followers", Str("f")), ("following", Str("gg"))];
    assert Line(Name('a', LAST)) == Document(fields);
    assert fields[1..] == [("following", Str("gg"))];
    assert EnqueueAll([F, G]) == [Enqueue(F), Enqueue(G)];
    assert CollectionJobs(fields, Name('a', LAST), LAST) == [Enqueue(F)] + [Enqueue(G)];
  }

  lemma {:induction false} LineAnswers()
    ensures Line("f") == Listing("y") && Line("gg") == Listing("x") && Line("h") == Listing("x") && Line("w") == Listing("z")
    ensures Line("y") == Followed("h") && Line("x") == Followed("w") && Line("z") == Document([])
    ensures Fits(Name('a', LAST)) && Fits("x") && Fits("y") && Fits("z")
  {
    NameTells('a', LAST);
    assert "f"[0] == 'f' && "gg"[0] == 'g' && "h"[0] == 'h' && "w"[0] == 'w' && "y"[0] == 'y' && "x"[0] == 'x' && "z"[0] == 'z';
  }

  lemma {:induction false} LeafLeads(env: Env, a: string, d: int)
    requires env.fetch(a) == Document([]) && Fits(a)
    ensures Plan(env, Actor(a, d)) == [Ensure([a])] + ([StopIfFetched(a)] + (EnqueueAll([]) + [SaveActor(a, d, true)]))
  {
    assert CollectionJobs([], a, d) == [];
  }

  lemma {:induction false} GatedLeads(env: Env, u: string, o: string, dir: Direction, d: int, member: string)
    requires env.fetch(u) == Listing(member) && env.maxDepth <= d && Fits(o)
    ensures Plan(env, Collection(u, o, dir, d)) == [Ensure([o])]
  {
  }

  // ---- visits beyond the line ----

  /** What counts of a state: popped so far, completed, queued, seen beyond the line, and of
      the actors there who has a depth and who is fetched. */
  datatype Stage = Stage(popped: seq<Job>, done: set<Job>, queue: set<Member>, known: seq<Job>, met: set<string>, fetched: set<string>)

  ghost predicate At(limit: int, s: State, g: Stage) {
    && s.pcs == map[WORKER := Idle, SEEDER := Stopped] && s.store.inflight == map[] && s.store.failed == {}
    && s.popped == g.popped && g.done <= s.completed && s.store.queue == g.queue
    && SeenUpTo(LineWeb(limit), s.store.seen - Hashes(LineWeb(limit), g.known), LAST)
    && (forall name :: Beyond(name) ==> (name in s.graph.depth <==> name in g.met) && (name in s.graph.fetched <==> name in g.fetched))
    && (forall j :: j in s.completed && Target(j) == "z" ==> "z" in g.fetched)
  }

  predicate NotOnLine(j: Job) {
    (j.Actor? || j.Collection?) && Target(j) != "" && Target(j)[0] != 'a' && Target(j)[0] != 'c'
  }

  /** A job beyond the line whose resource was not met is new, and takes its place among the known. */
  lemma {:induction false} NewBeyond(limit: int, seen: set<nat>, known: seq<Job>, j: Job)
    requires SeenUpTo(LineWeb(limit), seen - Hashes(LineWeb(limit), known), LAST) && NotOnLine(j)
    requires forall k :: k in known ==> !SameResource(j, k)
    ensures Hash(LineWeb(limit), j) !in seen && AllNew(LineWeb(limit), seen, [j])
    ensures SeenUpTo(LineWeb(limit), seen + Hashes(LineWeb(limit), [j]) - Hashes(LineWeb(limit), known + [j]), LAST)
  {
    hide Numbering, Name, Line, Write, Read, SeenUpTo;
    var env := LineWeb(limit);
    forall k: nat ensures Name('a', k) != "" && Name('a', k)[0] == 'a' && Name('c', k) != "" && Name('c', k)[0] == 'c' {
      NameTells('a', k);
      NameTells('c', k);
    }
    FurtherIsNew(limit, seen - Hashes(env, known), LAST, j);
    if Hash(env, j) in Hashes(env, known) {
      var k :| k in known && Hash(env, k) == Hash(env, j);
      NumberingTells(Id(k), Id(j));
      IdIdentifiesResource(k, j);
      assert false;
    }
    OneIsNew(env, seen, j);
    FewerSeen(limit, seen - Hashes(env, known), seen + Hashes(env, [j]) - Hashes(env, known + [j]));
  }

  lemma {:induction false} FewerSeen(limit: int, seen: set<nat>, fewer: set<nat>)
    requires SeenUpTo(LineWeb(limit), seen, LAST) && fewer <= seen
    ensures SeenUpTo(LineWeb(limit), fewer, LAST)
  {
  }

  /** On two digits these all come before the second collection, the only job that ever
      waits beside them. */
  ghost predicate Leads(j: Job, rest: set<Member>) {
    rest == {} || (rest == {In(G)} && 99 <= Depth(j) && (j.Actor? || (j.Collection? && |Id(j)| == 12)))
  }

  lemma {:induction false} Head(limit: int, j: Job, rest: set<Member>)
    requires Leads(j, rest)
    ensures IsFirst(In(j), rest + {In(j)}, LineWeb(limit).json) && rest + {In(j)} - {In(j)} == rest
    ensures In(j).job == j
  {
    hide Numbering, Name, Line, Write, Read, Noon;
    assert |Id(G)| == 13;
    if rest != {} {
      assert Before(In(j), In(G), LineWeb(limit).json);
    }
  }

  lemma {:induction false} Put(limit: int, k: Job)
    ensures MembersOf(LineWeb(limit), [k]) == {In(k)}
  {
    hide Numbering, Name, Line, Write, Read, Noon;
    assert k in [k];
  }

  lemma {:induction false} VisitFollowed(limit: int, s: State, g: Stage, rest: set<Member>, j: Job, u: string) returns (s': State)
    requires Comes(LineWeb(limit), LineStart(), s, true) && At(limit, s, g) && g.queue == rest + {In(j)} && Leads(j, rest)
    requires j.Actor? && Line(j.actorId) == Followed(u) && Fits(j.actorId) && Beyond(j.actorId) && j.actorId in g.met - g.fetched
    requires var k := Collection(u, j.actorId, Followers, j.depth); NotOnLine(k) && forall l :: l in g.known ==> !SameResource(k, l)
    ensures var k := Collection(u, j.actorId, Followers, j.depth);
            && Comes(LineWeb(limit), LineStart(), s', true)
            && At(limit, s', Stage(g.popped + [j], g.done + {j}, rest + {In(k)}, g.known + [k], g.met, g.fetched + {j.actorId}))
  {
    hide Numbering, Strokes, Line, Write, Read, Comes, IsFirst, Plan, SeenUpTo, Name, Hash, MemberOf, MembersOf, Hashes, AllNew, Beyond, Noon, Fits, Walk, Follows, EnqueueAll;
    var env, k := LineWeb(limit), Collection(u, j.actorId, Followers, j.depth);
    FollowedLeads(env, j.actorId, j.depth, u);
    Head(limit, j, rest);
    Put(limit, k);
    NewBeyond(limit, s.store.seen, g.known, k);
    s' := VisitsActor(env, LineStart(), s, WORKER, In(j), [k], true, true);
  }

  lemma {:induction false} VisitLeaf(limit: int, s: State, g: Stage, rest: set<Member>, j: Job) returns (s': State)
    requires Comes(LineWeb(limit), LineStart(), s, true) && At(limit, s, g) && g.queue == rest + {In(j)} && Leads(j, rest)
    requires j.Actor? && Line(j.actorId) == Document([]) && Fits(j.actorId) && Beyond(j.actorId) && j.actorId in g.met - g.fetched
    ensures Comes(LineWeb(limit), LineStart(), s', true)
    ensures At(limit, s', Stage(g.popped + [j], g.done + {j}, rest, g.known, g.met, g.fetched + {j.actorId}))
  {
    hide Numbering, Strokes, Line, Write, Read, Comes, IsFirst, Plan, SeenUpTo, Name, Hash, MemberOf, MembersOf, Hashes, AllNew, Beyond, Noon, Fits, Walk, Follows, EnqueueAll;
    var env := LineWeb(limit);
    LeafLeads(env, j.actorId, j.depth);
    Head(limit, j, rest);
    NothingPut(env, ZRem(s.store, In(j)));
    s' := VisitsActor(env, LineStart(), s, WORKER, In(j), [], true, true);
  }

  lemma {:induction false} VisitListing(limit: int, s: State, g: Stage, rest: set<Member>, j: Job, x: string) returns (s': State)
    requires Comes(LineWeb(limit), LineStart(), s, true) && At(limit, s, g) && g.queue == rest + {In(j)} && Leads(j, rest)
    requires j.Collection? && Line(j.collectionId) == Listing(x) && j.depth < limit && Fits(j.owner) && Target(j) != "z"
    requires x != "" && Fits(x) && Beyond(x) && x !in g.met + g.fetched
    requires NotOnLine(Actor(x, j.depth + 1)) && forall l :: l in g.known ==> !SameResource(Actor(x, j.depth + 1), l)
    ensures var k := Actor(x, j.depth + 1);
            && Comes(LineWeb(limit), LineStart(), s', true)
            && At(limit, s', Stage(g.popped + [j], g.done + {j}, rest + {In(k)}, g.known + [k], g.met + {x}, g.fetched))
  {
    hide Numbering, Strokes, Line, Write, Read, Comes, IsFirst, Plan, SeenUpTo, Name, Hash, MemberOf, MembersOf, Hashes, AllNew, Beyond, Noon, Fits, Walk, Follows, EnqueueAll;
    var env, k := LineWeb(limit), Actor(x, j.depth + 1);
    ListingLeads(env, j.collectionId, j.owner, j.direction, j.depth, x);
    Head(limit, j, rest);
    Put(limit, k);
    NewBeyond(limit, s.store.seen, g.known, k);
    s' := VisitsCollection(env, LineStart(), s, WORKER, In(j), x, true);
  }

  /** A member who has been visited already. */
  lemma {:induction false} VisitListed(limit: int, s: State, g: Stage, rest: set<Member>, j: Job, x: string) returns (s': State)
    requires Comes(LineWeb(limit), LineStart(), s, true) && At(limit, s, g) && g.queue == rest + {In(j)} && Leads(j, rest)
    requires j.Collection? && Line(j.collectionId) == Listing(x) && j.depth < limit && Fits(j.owner) && Target(j) != "z"
    requires x != "" && Fits(x) && Beyond(x) && x in g.met && x in g.fetched
    ensures Comes(LineWeb(limit), LineStart(), s', true)
    ensures At(limit, s', Stage(g.popped + [j], g.done + {j}, rest, g.known, g.met, g.fetched))
  {
    hide Numbering, Strokes, Line, Write, Read, Comes, IsFirst, Plan, SeenUpTo, Name, Hash, MemberOf, MembersOf, Hashes, AllNew, Beyond, Noon, Fits, Walk, Follows, EnqueueAll;
    var env := LineWeb(limit);
    ListingLeads(env, j.collectionId, j.owner, j.direction, j.depth, x);
    Head(limit, j, rest);
    NothingPut(env, ZRem(s.store, In(j)));
    s' := VisitsCollection(env, LineStart(), s, WORKER, In(j), x, true);
  }

  /** A collection on the limit. */
  lemma {:induction false} VisitGated(limit: int, s: State, g: Stage, rest: set<Member>, j: Job, x: string) returns (s': State)
    requires Comes(LineWeb(limit), LineStart(), s, true) && At(limit, s, g) && g.queue == rest + {In(j)} && Leads(j, rest)
    requires j.Collection? && Line(j.collectionId) == Listing(x) && limit <= j.depth && Fits(j.owner) && Target(j) != "z"
    ensures Comes(LineWeb(limit), LineStart(), s', true)
    ensures At(limit, s', Stage(g.popped + [j], g.done + {j}, rest, g.known, g.met, g.fetched))
  {
    hide Numbering, Strokes, Line, Write, Read, Comes, IsFirst, Plan, SeenUpTo, Name, Hash, MemberOf, MembersOf, Hashes, AllNew, Beyond, Noon, Fits, Walk, Follows, EnqueueAll;
    var env := LineWeb(limit);
    GatedLeads(env, j.collectionId, j.owner, j.direction, j.depth, x);
    Head(limit, j, rest);
    s' := VisitsNothing(env, LineStart(), s, WORKER, In(j), j.owner, true);
  }

  // ---- the last visit within two digits ----

  /** Two collections are in the queue. */
  ghost function Forked(before: seq<Job>): Stage {
    Stage(before + [LineActor(LAST)], {}, {In(F), In(G)}, [F, G], {}, {})
  }

  lemma {:induction false} Fork(limit: int, s: State) returns (s': State)
    requires Comes(LineWeb(limit), LineStart(), s, true) && AtLevel(LineWeb(limit), s, LAST)
    ensures Comes(LineWeb(limit), LineStart(), s', true) && At(limit, s', Forked(s.popped))
  {
    hide Numbering, Strokes, Line, Write, Read, Comes, IsFirst, Plan, SeenUpTo, Name, Hash, MemberOf, AllNew, Noon, Beyond;
    var env := LineWeb(limit);
    LastLeads(limit);
    ForkIsNew(limit, s.store.seen);
    OnlyMember(env, LineActor(LAST));
    MemberJob(LineActor(LAST), env.crc);
    LineNotBeyond('a', LAST);
    var m := MemberOf(LineActor(LAST), env.crc, Noon());
    s' := VisitsActor(env, LineStart(), s, WORKER, m, [F, G], true, true);
    assert {m} - {m} == {};
    PutBoth(limit);
    assert s'.store.queue == {In(F), In(G)};
    NoneBeyond(s);
  }

  lemma {:induction false} NoneBeyond(s: State)
    requires TailUnmet(s)
    ensures (forall j :: j in s.completed ==> Target(j) != "z") && Target(LineActor(LAST)) != "z"
  {
    LineNotBeyond('a', LAST);
  }

  lemma {:induction false} PutBoth(limit: int)
    ensures MembersOf(LineWeb(limit), [F, G]) == {In(F), In(G)}
  {
    hide Numbering, Name, Line, Write, Read, Noon;
    assert [F, G][0] == F && [F, G][1] == G;
  }

  lemma {:induction false} ForkIsNew(limit: int, seen: set<nat>)
    requires SeenUpTo(LineWeb(limit), seen, LAST)
    ensures AllNew(LineWeb(limit), seen, [F, G])
    ensures SeenUpTo(LineWeb(limit), seen + Hashes(LineWeb(limit), [F, G]) - Hashes(LineWeb(limit), [F, G]), LAST)
  {
    hide Numbering, Strokes, Line, Write, Read, SeenUpTo, Name, Hash;
    var env := LineWeb(limit);
    assert seen - Hashes(env, []) == seen;
    NewBeyond(limit, seen, [], F);
    NewBeyond(limit, seen, [], G);
    if Hash(env, F) == Hash(env, G) {
      IdsTell(limit, F, G);
    }
    OneIsNew(env, seen + {Hash(env, F)}, G);
    assert [F, G][1..] == [G];
    FewerSeen(limit, seen, seen + Hashes(env, [F, G]) - Hashes(env, [F, G]));
  }

  lemma {:induction false} IdsTell(limit: int, a: Job, b: Job)
    requires Hash(LineWeb(limit), a) == Hash(LineWeb(limit), b)
    ensures SameResource(a, b)
  {
    hide Numbering, Line, Write, Read;
    NumberingTells(Id(a), Id(b));
    IdIdentifiesResource(a, b);
  }

  /** The first collection, and the actor it lists, who is a hundred hops in. */
  lemma {:induction false} ToY(limit: int, s: State, before: seq<Job>) returns (s': State)
    requires LAST < limit && Comes(LineWeb(limit), LineStart(), s, true) && At(limit, s, Forked(before))
    ensures Comes(LineWeb(limit), LineStart(), s', true)
    ensures At(limit, s', Stage(before + [LineActor(LAST), F, Y], {F, Y}, {In(G), In(H)}, [F, G, Y, H], {"y"}, {"y"}))
  {
    hide Numbering, Strokes, Line, Write, Read, Comes, Name, Noon, MemberOf, At;
    LineAnswers();
    var p := before + [LineActor(LAST)];
    assert {In(G)} + {In(F)} == {In(F), In(G)};
    s' := VisitListing(limit, s, Forked(before), {In(G)}, F, "y");
    assert [F, G] + [Y] == [F, G, Y];
    s' := VisitFollowed(limit, s', Stage(p + [F], {} + {F}, {In(G)} + {In(Y)}, [F, G] + [Y], {} + {"y"}, {}), {In(G)}, Y, "h");
    assert p + [F] + [Y] == before + [LineActor(LAST), F, Y];
    assert [F, G, Y] + [H] == [F, G, Y, H];
    assert {In(G)} + {In(H)} == {In(G), In(H)} && {} + {F} + {Y} == {F, Y} && {} + {"y"} == {"y"};
  }

  /** After the visit of "y": its collection comes before the one left on depth 99. */
  ghost function AfterY(before: seq<Job>): Stage {
    Stage(before + [LineActor(LAST), F, Y], {F, Y}, {In(G), In(H)}, [F, G, Y, H], {"y"}, {"y"})
  }

  /** Nothing is queued any more; the second collection has come after "y". */
  ghost predicate Ended(limit: int, s: State, before: seq<Job>, g: Stage) {
    && At(limit, s, g) && g.queue == {} && AfterY(before).popped <= g.popped && G in g.popped[|before| + 3..]
    && (limit > 100 ==> X(101) in g.done) && (limit == 101 ==> "z" !in g.fetched)
  }

  /** With a limit of 100 its collection is not walked, and the other leads to "x" first. */
  lemma {:induction false} EndAt100(s: State, before: seq<Job>) returns (s': State, g: Stage)
    requires Comes(LineWeb(100), LineStart(), s, true) && At(100, s, AfterY(before))
    ensures Comes(LineWeb(100), LineStart(), s', true) && Ended(100, s', before, g)
  {
    hide Numbering, Strokes, Line, Write, Read, Comes, Name, Noon, MemberOf, At;
    LineAnswers();
    var g0 := AfterY(before);
    assert g0.queue == {In(G)} + {In(H)};
    s' := VisitGated(100, s, g0, {In(G)}, H, "x");
    var g1 := Stage(g0.popped + [H], g0.done + {H}, {In(G)}, g0.known, g0.met, g0.fetched);
    assert g1.queue == {} + {In(G)};
    s' := VisitListing(100, s', g1, {}, G, "x");
    var g2 := Stage(g1.popped + [G], g1.done + {G}, {} + {In(X(100))}, g1.known + [X(100)], g1.met + {"x"}, g1.fetched);
    s' := VisitFollowed(100, s', g2, {}, X(100), "w");
    var g3 := Stage(g2.popped + [X(100)], g2.done + {X(100)}, {} + {In(W(100))}, g2.known + [W(100)], g2.met, g2.fetched + {"x"});
    s' := VisitGated(100, s', g3, {}, W(100), "z");
    g := Stage(g3.popped + [W(100)], g3.done + {W(100)}, {}, g3.known, g3.met, g3.fetched);
    assert g.popped[|before| + 4] == G;
  }

  /** With a larger one it is walked, and leads to "x" in a hop too many. */
  lemma {:induction false} EndBeyond(limit: int, s: State, before: seq<Job>) returns (s': State, g: Stage)
    requires 100 < limit && Comes(LineWeb(limit), LineStart(), s, true) && At(limit, s, AfterY(before))
    ensures Comes(LineWeb(limit), LineStart(), s', true) && Ended(limit, s', before, g)
  {
    hide Numbering, Strokes, Line, Write, Read, Comes, Name, Noon, MemberOf, At;
    LineAnswers();
    var g0 := AfterY(before);
    assert g0.queue == {In(G)} + {In(H)};
    s' := VisitListing(limit, s, g0, {In(G)}, H, "x");
    var g1 := Stage(g0.popped + [H], g0.done + {H}, {In(G)} + {In(X(101))}, g0.known + [X(101)], g0.met + {"x"}, g0.fetched);
    s' := VisitFollowed(limit, s', g1, {In(G)}, X(101), "w");
    var g2 := Stage(g1.popped + [X(101)], g1.done + {X(101)}, {In(G)} + {In(W(101))}, g1.known + [W(101)], g1.met, g1.fetched + {"x"});
    var g3: Stage;
    s', g3 := PassW(limit, s', g2);
    assert g3.queue == {} + {In(G)};
    s' := VisitListed(limit, s', g3, {}, G, "x");
    g := Stage(g3.popped + [G], g3.done + {G}, {}, g3.known, g3.met, g3.fetched);
    assert g.popped[|g3.popped|] == G;
  }

  /** The collection of "x", on the limit or below it. */
  lemma {:induction false} PassW(limit: int, s: State, g: Stage) returns (s': State, g': Stage)
    requires 100 < limit && Comes(LineWeb(limit), LineStart(), s, true) && At(limit, s, g)
    requires g.queue == {In(G)} + {In(W(101))} && "z" !in g.met + g.fetched && forall l :: l in g.known ==> !SameResource(Z, l)
    ensures Comes(LineWeb(limit), LineStart(), s', true) && At(limit, s', g')
    ensures g'.queue == {In(G)} && g.popped <= g'.popped && g.done <= g'.done && g.met <= g'.met && g.fetched <= g'.fetched
    ensures limit == 101 ==> g'.fetched == g.fetched
  {
    hide Numbering, Strokes, Line, Write, Read, Comes, Name, Noon, MemberOf, At;
    LineAnswers();
    if limit == 101 {
      s' := VisitGated(limit, s, g, {In(G)}, W(101), "z");
      g' := Stage(g.popped + [W(101)], g.done + {W(101)}, {In(G)}, g.known, g.met, g.fetched);
    } else {
      s' := VisitListing(limit, s, g, {In(G)}, W(101), "z");
      var g1 := Stage(g.popped + [W(101)], g.done + {W(101)}, {In(G)} + {In(Z)}, g.known + [Z], g.met + {"z"}, g.fetched);
      s' := VisitLeaf(limit, s', g1, {In(G)}, Z);
      g' := Stage(g1.popped + [Z], g1.done + {Z}, {In(G)}, g1.known, g1.met, g1.fetched + {"z"});
    }
  }

  /** The whole crawl of the line. */
  lemma {:induction false} WholeCrawl(limit: int) returns (s: State, before: seq<Job>, g: Stage)
    requires LAST < limit
    ensures Comes(LineWeb(limit), LineStart(), s, true) && Ended(limit, s, before, g)
  {
    hide Comes, AtLevel, At, Numbering, Line, Write, Read, Name;
    s := Levels(limit, LAST);
    before := s.popped;
    s := Fork(limit, s);
    s := ToY(limit, s, before);
    if limit == 100 {
      s, g := EndAt100(s, before);
    } else {
      s, g := EndBeyond(limit, s, before);
    }
  }

  // ---- what the web offers ----

  lemma {:induction false} LineIsDiscovered(limit: int, n: nat)
    requires LAST < limit && n <= LAST
    ensures Discovered(LineWeb(limit), {LineActor(0)}, LineActor(n))
  {
    hide Discovered, Successors, Numbering, Strokes, Write, Read;
    var env, seeds := LineWeb(limit), {LineActor(0)};
    if n == 0 {
      SeedIsDiscovered(env, seeds, LineActor(0));
    } else {
      LineIsDiscovered(limit, n - 1);
      NameTells('a', n - 1);
      NameTells('c', n - 1);
      NameTells('a', n);
      FollowedDiscovers(env, Name('a', n - 1), n - 1, Name('c', n - 1));
      DiscoveredStep(env, seeds, LineActor(n - 1), LineCollection(n - 1));
      ListingDiscovers(env, Name('c', n - 1), Name('a', n - 1), Followers, n - 1, Name('a', n));
      DiscoveredStep(env, seeds, LineCollection(n - 1), LineActor(n));
    }
  }

  lemma {:induction false} LastDiscoversG(limit: int)
    ensures G in Successors(LineWeb(limit), LineActor(LAST))
  {
    hide Numbering, Write, Read, Plan;
    PlanDiscoversSuccessors(LineWeb(limit), LineActor(LAST));
    LastLeads(limit);
    var a := Name('a', LAST);
    var todo := [Ensure([a])] + ([StopIfFetched(a)] + (EnqueueAll([F, G]) + [SaveActor(a, LAST, true)]));
    assert todo[3] == Enqueue(G);
    assert G in Targets(todo);
  }

  /** A hundred hops lead to "x", and from 101 on another one to "z". */
  lemma {:induction false} Offered100(limit: int)
    requires 100 <= limit
    ensures Discovered(LineWeb(limit), {LineActor(0)}, X(100))
    ensures 100 < limit ==> Discovered(LineWeb(limit), {LineActor(0)}, Actor("z", 101))
  {
    hide Discovered, Successors, Numbering, Strokes, Write, Read, Line, Name;
    var env, seeds := LineWeb(limit), {LineActor(0)};
    LineAnswers();
    LineIsDiscovered(limit, LAST);
    LastDiscoversG(limit);
    DiscoveredStep(env, seeds, LineActor(LAST), G);
    ListingDiscovers(env, "gg", Name('a', LAST), Following, 99, "x");
    DiscoveredStep(env, seeds, G, X(100));
    if 100 < limit {
      FollowedDiscovers(env, "x", 100, "w");
      DiscoveredStep(env, seeds, X(100), W(100));
      ListingDiscovers(env, "w", "x", Followers, 100, "z");
      DiscoveredStep(env, seeds, W(100), Actor("z", 101));
    }
  }

  lemma {:induction false} LineIsFair(limit: int)
    ensures SoloInitial(LineStart(), {LineActor(0)}) && SeedJobs({LineActor(0)}) && NoCollisions(LineWeb(limit), {LineActor(0)})
    ensures forall id :: LineWeb(limit).crc(id) < 0x1_0000_0000
  {
    hide Numbering, Line, Write, Read;
    var env, seeds, list := LineWeb(limit), {LineActor(0)}, [LineActor(0)];
    assert EnqueueAll(list)[0] == Enqueue(LineActor(0));
    assert LineActor(0) in Targets(EnqueueAll(list));
    assert LineStart().pcs[SEEDER] == Working(None, EnqueueAll(list));
    assert forall j :: j in list ==> j in seeds;
    forall j, k | Hash(env, j) == Hash(env, k) ensures Id(j) == Id(k) {
      NumberingTells(Id(j), Id(k));
    }
  }

  /** What the single-worker results ask for, but for the depth limit. */
  ghost predicate Promising(env: Env, seeds: set<Job>, run: seq<State>, steps: seq<Step>) {
    && IsRun(env, run, steps) && SoloInitial(run[0], seeds) && Undisturbed(run, steps) && Realistic(env, steps)
    && SeedJobs(seeds) && NoCollisions(env, seeds) && Quiet(run[|steps|]) && SeedingOver(run[|steps|])
  }

  /** Under every depth limit above 99 the order of levels can fail: all else that
      `LevelPhases` asks for holds, and two jobs come out deeper one first. */
  lemma {:induction false} LevelsInvert(limit: int)
    returns (env: Env, seeds: set<Job>, run: seq<State>, steps: seq<Step>, p: nat, q: nat)
    requires 99 < limit
    ensures env.maxDepth == limit && Promising(env, seeds, run, steps)
    ensures p < q < |run[|steps|].popped| && !LevelLe(run[|steps|].popped[p], run[|steps|].popped[q])
  {
    hide Comes, Numbering, Line, Write, Read, Name, SoloInitial, SeedJobs, NoCollisions, Undisturbed, IsRun, Stamped, Noon;
    env, seeds := LineWeb(limit), {LineActor(0)};
    LineIsFair(limit);
    var s, before, g := WholeCrawl(limit);
    run, steps := RunOf(env, LineStart(), s, true);
    p := |before| + 2;
    assert s.popped[p] == Y;
    var i :| 0 <= i < |s.popped| - |before| - 3 && s.popped[|before| + 3..][i] == G;
    q := |before| + 3 + i;
  }

  /** Under every depth limit above 100 the outcome can fail: all else that
      `CrawlIsBreadthFirst` asks for holds, and an actor has been handled, and put on
      record, one hop deeper than need be. With a limit of 101 an actor the web offers
      has not been handled at all. */
  lemma {:induction false} MinimumIsMissed(limit: int)
    returns (env: Env, seeds: set<Job>, run: seq<State>, steps: seq<Step>)
    requires 100 < limit
    ensures env.maxDepth == limit && Promising(env, seeds, run, steps)
    ensures X(101) in run[|steps|].completed && Discovered(env, seeds, X(100)) && !HandlesAtMinimum(env, seeds, run[|steps|])
    ensures limit == 101 ==> !HandlesAll(env, seeds, run[|steps|])
  {
    hide Comes, Numbering, Line, Write, Read, Name, SoloInitial, SeedJobs, NoCollisions, Undisturbed, IsRun, Stamped, Noon, Discovered;
    env, seeds := LineWeb(limit), {LineActor(0)};
    LineIsFair(limit);
    var s, before, g := WholeCrawl(limit);
    run, steps := RunOf(env, LineStart(), s, true);
    Offered100(limit);
    assert Handled(s, X(101)) && SameResource(X(101), X(100));
    if limit == 101 {
      assert forall h :: Handled(s, h) ==> !SameResource(h, Actor("z", 101));
    }
  }
}
