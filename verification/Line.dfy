/**
 A web for crawls that come to where the queue's two digits end: a line of actors, each
 with one follower. The last of them, a hundred hops in, follows and is followed, so that
 two collections stand on depth 99. One lists the actor "y", the other the actor "x", and
 "y" is followed by a list of "x" too; "x" is followed by a list of "z".
 */
module Lines {
  import opened Options
  import opened JsonValues
  import opened Jobs
  import opened Codec
  import opened Web
  import opened Protocol
  import opened BreadthFirst
  import opened Hypotheses
  import opened Visits

  const SEEDER: nat := 1
  const LAST: nat := 99

  function Name(kind: char, n: nat): string {
    [kind] + Strokes(n)
  }

  function LineActor(n: nat): Job {
    Actor(Name('a', n), n)
  }

  function LineCollection(n: nat): Job {
    Collection(Name('c', n), Name('a', n), Followers, n)
  }

  function LastFollowers(): Job {
    Collection("f", Name('a', LAST), Followers, LAST)
  }

  function LastFollowing(): Job {
    Collection("gg", Name('a', LAST), Following, LAST)
  }

  /** The documents of the line. */
  function Line(url: string): Fetch {
    if url == "" then Broken
    else
      var n := |url| - 1;
      match url[0]
      case 'a' =>
        if n < LAST then Followed(Name('c', n))
        else Document([("followers", Str("f")), ("following", Str("gg"))])
      case 'c' => Listing(Name('a', n + 1))
      case 'f' => Listing("y")
      case 'g' => Listing("x")
      case 'y' => Followed("h")
      case 'h' => Listing("x")
      case 'x' => Followed("w")
      case 'w' => Listing("z")
      case _ => Document([])
  }

  ghost function LineWeb(maxDepth: int): Env {
    Env(Line, (handle: string) => None, maxDepth, Numbering, (id: string) => |id| % 0x1_0000_0000, JsonText(Write, Read))
  }

  // ---- the plans of its jobs ----

  lemma {:induction false} NameTells(kind: char, n: nat)
    ensures |Name(kind, n)| == n + 1 && Name(kind, n)[0] == kind
  {
    StrokesCount(n);
  }

  lemma {:induction false} ActorLeads(maxDepth: int, n: nat)
    requires n < LAST
    ensures var a := Name('a', n);
            Plan(LineWeb(maxDepth), LineActor(n)) ==
            [Ensure([a])] + ([StopIfFetched(a)] + (EnqueueAll([LineCollection(n)]) + [SaveActor(a, n, true)]))
  {
    hide Strokes, Numbering, Write, Read;
    NameTells('a', n);
    FollowedLeads(LineWeb(maxDepth), Name('a', n), n, Name('c', n));
  }

  lemma {:induction false} LastLeads(maxDepth: int)
    ensures var a := Name('a', LAST);
            Plan(LineWeb(maxDepth), LineActor(LAST)) ==
            [Ensure([a])] + ([StopIfFetched(a)] + (EnqueueAll([LastFollowers(), LastFollowing()]) + [SaveActor(a, LAST, true)]))
  {
    hide Strokes, Numbering, Write, Read;
    NameTells('a', LAST);
    var fields := [("followers", Str("f")), ("following", Str("gg"))];
    assert Line(Name('a', LAST)) == Document(fields);
    assert fields[1..] == [("following", Str("gg"))];
    assert EnqueueAll([LastFollowers(), LastFollowing()]) == [Enqueue(LastFollowers()), Enqueue(LastFollowing())];
    assert CollectionJobs(fields, Name('a', LAST), LAST) == [Enqueue(LastFollowers())] + [Enqueue(LastFollowing())];
  }

  // ---- level by level ----

  ghost predicate SeenUpTo(env: Env, seen: set<nat>, n: nat) {
    forall h :: h in seen ==> exists k: nat :: k <= n && SeenAt(env, h, n, k)
  }

  ghost predicate SeenAt(env: Env, h: nat, n: nat, k: nat) {
    h == Hash(env, LineActor(k)) || (k < n && h == Hash(env, LineCollection(k)))
  }

  /** The actors beyond the line. */
  predicate Beyond(name: string) {
    name == "x" || name == "y" || name == "z"
  }

  ghost predicate TailUnmet(s: State) {
    && s.store.failed == {} && (forall j :: j in s.completed ==> !Beyond(Target(j)))
    && (forall name :: Beyond(name) ==> name !in s.graph.depth && name !in s.graph.fetched)
  }

  lemma {:induction false} LineNotBeyond(kind: char, n: nat)
    requires kind == 'a' || kind == 'c'
    ensures !Beyond(Name(kind, n))
  {
    NameTells(kind, n);
    assert "x"[0] == 'x' && "y"[0] == 'y' && "z"[0] == 'z';
  }

  /** The crawl is about to visit actor `n` of the line, and knows nothing beyond it. */
  ghost predicate AtLevel(env: Env, s: State, n: nat) {
    && s.pcs == map[WORKER := Idle, SEEDER := Stopped]
    && s.store.queue == {MemberOf(LineActor(n), env.crc, Noon())} && s.store.inflight == map[]
    && SeenUpTo(env, s.store.seen, n)
    && (forall k: nat :: n <= k ==> Name('a', k) !in s.graph.fetched)
    && (forall k: nat :: n < k ==> Name('a', k) !in s.graph.depth)
    && TailUnmet(s)
  }

  lemma {:induction false} NamesDiffer(kind: char, k: nat, n: nat)
    ensures Name(kind, k) == Name(kind, n) <==> k == n
  {
    NameTells(kind, k);
    NameTells(kind, n);
  }

  /** Nothing on the line up to actor `n` has the id of a job further on. */
  lemma {:induction false} FurtherIsNew(maxDepth: int, seen: set<nat>, n: nat, j: Job)
    requires SeenUpTo(LineWeb(maxDepth), seen, n)
    requires j.Actor? ==> forall k: nat :: k <= n ==> j.actorId != Name('a', k)
    requires j.Collection? ==> forall k: nat :: k < n ==> j.collectionId != Name('c', k)
    requires j.Actor? || j.Collection?
    ensures Hash(LineWeb(maxDepth), j) !in seen
  {
    hide Numbering, Name, Line, Write, Read;
    var env := LineWeb(maxDepth);
    if Hash(env, j) in seen {
      var k: nat :| k <= n && SeenAt(env, Hash(env, j), n, k);
      var other := if Hash(env, j) == Hash(env, LineActor(k)) then LineActor(k) else LineCollection(k);
      NumberingTells(Id(j), Id(other));
      IdIdentifiesResource(j, other);
      assert false;
    }
  }

  lemma {:induction false} OnlyMember(env: Env, j: Job)
    ensures MembersOf(env, [j]) == {MemberOf(j, env.crc, Noon())} && Hashes(env, [j]) == {Hash(env, j)}
    ensures IsFirst(MemberOf(j, env.crc, Noon()), {MemberOf(j, env.crc, Noon())}, env.json)
  {
    hide MemberOf, Hash;
    assert j in [j];
  }

  lemma {:induction false} OneIsNew(env: Env, seen: set<nat>, j: Job)
    requires Hash(env, j) !in seen
    ensures AllNew(env, seen, [j])
  {
    assert [j][1..] == [];
  }

  /** Actor `n` has been visited, its collection waits. */
  ghost predicate AtCollection(env: Env, s: State, n: nat) {
    && s.pcs == map[WORKER := Idle, SEEDER := Stopped]
    && s.store.queue == {MemberOf(LineCollection(n), env.crc, Noon())} && s.store.inflight == map[]
    && SeenUpTo(env, s.store.seen - {Hash(env, LineCollection(n))}, n)
    && (forall k: nat :: n < k ==> Name('a', k) !in s.graph.fetched && Name('a', k) !in s.graph.depth)
    && TailUnmet(s)
  }

  lemma {:induction false} ActorStep(maxDepth: int, start: State, s: State, n: nat) returns (s': State)
    requires n < LAST && Comes(LineWeb(maxDepth), start, s, true) && AtLevel(LineWeb(maxDepth), s, n)
    ensures Comes(LineWeb(maxDepth), start, s', true) && AtCollection(LineWeb(maxDepth), s', n)
  {
    hide Numbering, Strokes, Line, Write, Read, Comes, MemberOf, IsFirst, Plan, SeenUpTo, Name, Hash, MembersOf, Hashes, AllNew, Beyond, Noon;
    var env, j := LineWeb(maxDepth), LineCollection(n);
    ActorLeads(maxDepth, n);
    LineNotBeyond('a', n);
    forall k: nat | k < n ensures j.collectionId != Name('c', k) {
      NamesDiffer('c', k, n);
    }
    FurtherIsNew(maxDepth, s.store.seen, n, j);
    OnlyMember(env, LineActor(n));
    OnlyMember(env, j);
    OneIsNew(env, s.store.seen, j);
    var m := MemberOf(LineActor(n), env.crc, Noon());
    MemberJob(LineActor(n), env.crc);
    s' := VisitsActor(env, start, s, WORKER, m, [j], true, true);
    assert {m} - {m} == {};
    assert s'.store.queue == {MemberOf(j, env.crc, Noon())};
    assert s'.store.seen - {Hash(env, j)} == s.store.seen;
    forall k: nat | n < k ensures Name('a', k) != Name('a', n) {
      NamesDiffer('a', k, n);
    }
  }

  lemma {:induction false} MemberJob(j: Job, crc: string -> nat)
    ensures MemberOf(j, crc, Noon()).job == j
  {
  }

  lemma {:induction false} CollectionStep(maxDepth: int, start: State, s: State, n: nat) returns (s': State)
    requires LAST < maxDepth && n < LAST
    requires Comes(LineWeb(maxDepth), start, s, true) && AtCollection(LineWeb(maxDepth), s, n)
    ensures Comes(LineWeb(maxDepth), start, s', true) && AtLevel(LineWeb(maxDepth), s', n + 1)
  {
    hide Numbering, Strokes, Write, Read, Comes, MemberOf, IsFirst, Plan, SeenUpTo, Name, Hash, MembersOf, Hashes, AllNew, Beyond, Noon;
    var env, j, k := LineWeb(maxDepth), LineCollection(n), LineActor(n + 1);
    var m, x := MemberOf(j, env.crc, Noon()), Name('a', n + 1);
    NameTells('c', n);
    NameTells('a', n);
    NameTells('a', n + 1);
    LineNotBeyond('c', n);
    LineNotBeyond('a', n + 1);
    ListingLeads(env, Name('c', n), Name('a', n), Followers, n, x);
    NextIsNew(maxDepth, s.store.seen, n);
    OnlyMember(env, j);
    OnlyMember(env, k);
    MemberJob(j, env.crc);
    s' := VisitsCollection(env, start, s, WORKER, m, x, true);
    assert {m} - {m} == {};
    assert s'.store.queue == {MemberOf(k, env.crc, Noon())};
    SeenGrows(maxDepth, s.store.seen, n);
    forall l: nat | n + 1 < l ensures Name('a', l) != x {
      NamesDiffer('a', l, n + 1);
    }
  }

  lemma {:induction false} NextIsNew(maxDepth: int, seen: set<nat>, n: nat)
    requires SeenUpTo(LineWeb(maxDepth), seen - {Hash(LineWeb(maxDepth), LineCollection(n))}, n)
    ensures Hash(LineWeb(maxDepth), LineActor(n + 1)) !in seen
  {
    hide Numbering, Name, Line, Write, Read, SeenUpTo;
    var env := LineWeb(maxDepth);
    forall k: nat | k <= n ensures Name('a', n + 1) != Name('a', k) {
      NamesDiffer('a', n + 1, k);
    }
    FurtherIsNew(maxDepth, seen - {Hash(env, LineCollection(n))}, n, LineActor(n + 1));
    if Hash(env, LineActor(n + 1)) == Hash(env, LineCollection(n)) {
      NumberingTells(Id(LineActor(n + 1)), Id(LineCollection(n)));
      IdIdentifiesResource(LineActor(n + 1), LineCollection(n));
    }
  }

  lemma {:induction false} SeenGrows(maxDepth: int, seen: set<nat>, n: nat)
    requires SeenUpTo(LineWeb(maxDepth), seen - {Hash(LineWeb(maxDepth), LineCollection(n))}, n)
    ensures SeenUpTo(LineWeb(maxDepth), seen + {Hash(LineWeb(maxDepth), LineActor(n + 1))}, n + 1)
  {
    hide Numbering, Name, Line, Write, Read, Hash;
    var env := LineWeb(maxDepth);
    var next := n + 1;
    forall h | h in seen + {Hash(env, LineActor(next))} ensures exists k: nat :: k <= next && SeenAt(env, h, next, k) {
      if h == Hash(env, LineActor(next)) {
        assert SeenAt(env, h, next, next);
      } else if h == Hash(env, LineCollection(n)) {
        assert SeenAt(env, h, next, n);
      } else {
        assert h in seen - {Hash(env, LineCollection(n))};
        var k: nat :| k <= n && SeenAt(env, h, n, k);
        assert SeenAt(env, h, next, k);
      }
    }
  }

  // ---- the whole crawl ----

  /** One idle worker, and a script that will put the first actor in. */
  function LineStart(): State {
    State(EMPTY_STORE, EMPTY_GRAPH, map[WORKER := Idle, SEEDER := Working(None, EnqueueAll([LineActor(0)]))], {}, [])
  }

  lemma {:induction false} FirstLevel(maxDepth: int) returns (s: State)
    ensures Comes(LineWeb(maxDepth), LineStart(), s, true) && AtLevel(LineWeb(maxDepth), s, 0)
  {
    hide Numbering, Strokes, Line, Write, Read, Comes, MemberOf, IsFirst, Plan, Name, Hash, MembersOf, Hashes, AllNew, EnqueueAll;
    var env, start := LineWeb(maxDepth), LineStart();
    ComesItself(env, start, true);
    OneIsNew(env, {}, LineActor(0));
    OnlyMember(env, LineActor(0));
    s := Seeds(env, start, start, SEEDER, [LineActor(0)], true);
    assert s.pcs == map[WORKER := Idle, SEEDER := Stopped];
    assert s.store.queue == {MemberOf(LineActor(0), env.crc, Noon())};
    forall h | h in s.store.seen ensures exists k: nat :: k <= 0 && SeenAt(env, h, 0, k) {
      assert SeenAt(env, h, 0, 0);
    }
  }

  lemma {:induction false} Levels(maxDepth: int, n: nat) returns (s: State)
    requires LAST < maxDepth && n <= LAST
    ensures Comes(LineWeb(maxDepth), LineStart(), s, true) && AtLevel(LineWeb(maxDepth), s, n)
  {
    hide Comes, AtLevel, AtCollection;
    if n == 0 {
      s := FirstLevel(maxDepth);
    } else {
      s := Levels(maxDepth, n - 1);
      s := ActorStep(maxDepth, LineStart(), s, n - 1);
      s := CollectionStep(maxDepth, LineStart(), s, n - 1);
    }
  }
}
