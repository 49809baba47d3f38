/**
 What each handler does with a job, as a plan of calls (the handler files of pub_crawler,
 pub_crawler/handle_items.py), on a web that does not change during the crawl.

 The plan is worked out from the documents alone; what depends on the graph at
 the time of a call (the skip guard, missing depths, unfetched members) is left
 as an action that reads the graph when it is taken.
 */
module Web {
  import opened Options
  import opened JsonValues
  import opened Jobs
  import opened Codec
  import opened GraphTables

  /** What a GET comes to: a JSON object, a status that `raise_for_status`
      rejects, or any other exception. */
  datatype Fetch = Document(fields: seq<(string, Json)>) | HttpStatus(code: int) | Broken

  /** The surroundings of a crawl: the documents by URL, the actor a webfinger
      address resolves to (`None` when resolving raises), the depth limit, the
      two hashes of a job id, and the JSON library. */
  datatype Env = Env(
    fetch: string -> Fetch,
    actorOf: string -> Option<string>,
    maxDepth: int,
    hash: string -> nat,
    crc: string -> nat,
    json: JsonText)

  function Hash(env: Env, job: Job): nat {
    env.hash(Id(job))
  }

  // ---- reading documents ----

  function ItemId(item: Json): Option<string> {
    match item
    case Str(s) => if s != "" then Some(s) else None
    case Obj(fields) =>
      (match GetStr(fields, "id")
       case Some(id) => if id != "" then Some(id) else None
       case None => None)
    case _ => None
  }

  function ItemIds(items: seq<Json>): seq<string> {
    if items == [] then []
    else (match ItemId(items[0]) case Some(id) => [id] case None => []) + ItemIds(items[1..])
  }

  /** `json.get("items", json.get("orderedItems", None))` */
  function ItemsOf(fields: seq<(string, Json)>): Json {
    match Get(fields, "items")
    case Some(v) => v
    case None => match Get(fields, "orderedItems") case Some(v) => v case None => Null
  }

  /** The page a `first` or `next` value points at, when it points at one. */
  function LinkOf(fields: seq<(string, Json)>, key: string): Option<string> {
    match Get(fields, key)
    case Some(v) => ItemId(v)
    case None => None
  }

  predicate KnownEmpty(fields: seq<(string, Json)>) {
    match Get(fields, "totalItems")
    case Some(v) => IsIntZero(v)
    case None => false
  }

  /** The labels the items of a document name, or `Raised` when `handle_items`
      raises: the value is not iterable, or a label does not fit its column. */
  function MemberIds(items: Json): Result<seq<string>> {
    match Iterate(items)
    case Raised => Raised
    case Ok(list) => if AllFit(ItemIds(list)) then Ok(ItemIds(list)) else Raised
  }

  predicate Fits(node: string) {
    |node| <= MAX_LABEL
  }

  predicate AllFit(labels: seq<string>) {
    forall l :: l in labels ==> Fits(l)
  }

  // ---- plans ----

  datatype Action =
    | Ensure(ids: seq<string>)
    | Link(ids: seq<string>, owner: string, direction: Direction)
    | StampDepth(ids: seq<string>, depth: int)
    | WriteDepth(ids: seq<string>, depth: int)
    | QueueUnfetched(ids: seq<string>, depth: int)
    | StopIfFetched(actorId: string)
    | Enqueue(job: Job)
    | SaveActor(actorId: string, depth: int, fetched: bool)
    | Raise

  /** `handle_items` */
  function Walk(ids: seq<string>, owner: string, direction: Direction, depth: int): seq<Action> {
    [Ensure(ids), Link(ids, owner, direction), StampDepth(ids, depth + 1), QueueUnfetched(ids, depth + 1)]
  }

  function WebfingerPlan(env: Env, handle: string): seq<Action> {
    match env.actorOf(handle)
    case None => [Raise]
    case Some(a) => if !Fits(a) then [Raise] else [Ensure([a]), StampDepth([a], 0), QueueUnfetched([a], 0)]
  }

  function CollectionJobs(fields: seq<(string, Json)>, actorId: string, depth: int): seq<Action> {
    (match GetStr(fields, "followers")
     case Some(c) => [Enqueue(Collection(c, actorId, Followers, depth))] case None => []) +
    (match GetStr(fields, "following")
     case Some(c) => [Enqueue(Collection(c, actorId, Following, depth))] case None => [])
  }

  function ActorPlan(env: Env, actorId: string, depth: int): seq<Action> {
    if !Fits(actorId) then [Raise]
    else
      var fetched := match env.fetch(actorId)
        case Broken => [Raise]
        case HttpStatus(_) => [SaveActor(actorId, depth, false)]
        case Document(fields) => CollectionJobs(fields, actorId, depth) + [SaveActor(actorId, depth, true)];
      [Ensure([actorId]), StopIfFetched(actorId)] + fetched
  }

  function CollectionWalk(env: Env, fields: seq<(string, Json)>, owner: string, direction: Direction, depth: int): seq<Action> {
    if depth >= env.maxDepth || KnownEmpty(fields) then []
    else if Get(fields, "first").Some? then
      match LinkOf(fields, "first")
      case Some(id) => [Enqueue(Page(id, owner, direction, depth))]
      case None => []
    else if !Truthy(ItemsOf(fields)) then []
    else
      match MemberIds(ItemsOf(fields))
      case Raised => [Raise]
      case Ok(ids) => Walk(ids, owner, direction, depth)
  }

  function PageWalk(fields: seq<(string, Json)>, owner: string, direction: Direction, depth: int): seq<Action> {
    if !Truthy(ItemsOf(fields)) then []
    else
      match MemberIds(ItemsOf(fields))
      case Raised => [Raise]
      case Ok(ids) =>
        Walk(ids, owner, direction, depth) +
        match LinkOf(fields, "next")
        case Some(id) => [Enqueue(Page(id, owner, direction, depth))]
        case None => []
  }

  /** The calls the handler of `job` makes that matter to the crawl, in order. */
  function Plan(env: Env, job: Job): seq<Action> {
    match job
    case Webfinger(h) => WebfingerPlan(env, h)
    case Actor(a, d) => ActorPlan(env, a, d)
    case Collection(c, o, dir, d) =>
      if !Fits(o) then [Raise]
      else
        var fetched := match env.fetch(c)
          case Broken => [Raise]
          case HttpStatus(_) => []
          case Document(fields) => CollectionWalk(env, fields, o, dir, d);
        [Ensure([o])] + fetched
    case Page(p, o, dir, d) =>
      if !Fits(o) then [Raise]
      else
        var fetched := match env.fetch(p)
          case Broken => [Raise]
          case HttpStatus(_) => []
          case Document(fields) => PageWalk(fields, o, dir, d);
        [Ensure([o])] + fetched
  }

  // ---- successors ----

  function Members(items: Json, depth: int): set<Job> {
    match MemberIds(items)
    case Raised => {}
    case Ok(ids) => set id | id in ids :: Actor(id, depth)
  }

  function NextPage(fields: seq<(string, Json)>, key: string, owner: string, direction: Direction, depth: int): set<Job> {
    match LinkOf(fields, key)
    case Some(id) => {Page(id, owner, direction, depth)}
    case None => {}
  }

  function OwnCollection(fields: seq<(string, Json)>, actorId: string, direction: Direction, depth: int): set<Job> {
    match GetStr(fields, DirectionName(direction))
    case Some(c) => {Collection(c, actorId, direction, depth)}
    case None => {}
  }

  function PageSuccessors(fields: seq<(string, Json)>, o: string, dir: Direction, d: int): set<Job> {
    if !Truthy(ItemsOf(fields)) || MemberIds(ItemsOf(fields)).Raised? then {}
    else Members(ItemsOf(fields), d + 1) + NextPage(fields, "next", o, dir, d)
  }

  /** The jobs a job discovers, read off the web: a webfinger address leads to its
      actor, an actor to its collections, and a collection or page to its members
      one hop further and to its next page. Only collections check the depth. */
  function Successors(env: Env, job: Job): set<Job> {
    match job
    case Webfinger(h) =>
      (match env.actorOf(h) case Some(a) => if Fits(a) then {Actor(a, 0)} else {} case None => {})
    case Actor(a, d) =>
      (match env.fetch(a)
       case Document(fields) =>
         if Fits(a) then OwnCollection(fields, a, Followers, d) + OwnCollection(fields, a, Following, d) else {}
       case _ => {})
    case Collection(c, o, dir, d) =>
      (match env.fetch(c)
       case Document(fields) =>
         if !Fits(o) || d >= env.maxDepth || KnownEmpty(fields) then {}
         else if Get(fields, "first").Some? then NextPage(fields, "first", o, dir, d)
         else if Truthy(ItemsOf(fields)) then Members(ItemsOf(fields), d + 1) else {}
       case _ => {})
    case Page(p, o, dir, d) =>
      (match env.fetch(p)
       case Document(fields) => if Fits(o) then PageSuccessors(fields, o, dir, d) else {}
       case _ => {})
  }

  function TargetsOf(a: Action): set<Job> {
    match a
    case Enqueue(job) => {job}
    case QueueUnfetched(ids, d) => set id | id in ids :: Actor(id, d)
    case _ => {}
  }

  /** Every job a plan may enqueue. */
  function Targets(todo: seq<Action>): (jobs: set<Job>)
    ensures forall k :: k in jobs <==> exists i :: 0 <= i < |todo| && k in TargetsOf(todo[i])
  {
    set i, k | 0 <= i < |todo| && k in TargetsOf(todo[i]) :: k
  }

  lemma {:induction false} TargetsJoin(p: seq<Action>, q: seq<Action>)
    ensures Targets(p + q) == Targets(p) + Targets(q)
  {
    forall k | k in Targets(p) ensures k in Targets(p + q) {
      var i :| 0 <= i < |p| && k in TargetsOf(p[i]);
      assert (p + q)[i] == p[i];
    }
    forall k | k in Targets(q) ensures k in Targets(p + q) {
      var i :| 0 <= i < |q| && k in TargetsOf(q[i]);
      assert (p + q)[|p| + i] == q[i];
    }
  }

  lemma {:induction false} TargetsOne(a: Action)
    ensures Targets([a]) == TargetsOf(a)
  {
    assert [a][0] == a;
  }

  lemma {:induction false} WalkTargets(ids: seq<string>, o: string, dir: Direction, d: int)
    ensures Targets(Walk(ids, o, dir, d)) == set id | id in ids :: Actor(id, d + 1)
  {
    var walk := Walk(ids, o, dir, d);
    assert walk[3] == QueueUnfetched(ids, d + 1);
  }

  lemma {:induction false} CollectionWalkTargets(env: Env, fields: seq<(string, Json)>, c: string, o: string, dir: Direction, d: int)
    requires env.fetch(c) == Document(fields) && Fits(o)
    ensures Targets(CollectionWalk(env, fields, o, dir, d)) == Successors(env, Collection(c, o, dir, d))
  {
    if LinkOf(fields, "first").Some? {
      TargetsOne(Enqueue(Page(LinkOf(fields, "first").value, o, dir, d)));
    }
    if MemberIds(ItemsOf(fields)).Ok? {
      WalkTargets(MemberIds(ItemsOf(fields)).value, o, dir, d);
    }
    TargetsOne(Raise);
  }

  lemma {:induction false} PageWalkTargets(fields: seq<(string, Json)>, o: string, dir: Direction, d: int)
    ensures Targets(PageWalk(fields, o, dir, d)) == PageSuccessors(fields, o, dir, d)
  {
    TargetsOne(Raise);
    if MemberIds(ItemsOf(fields)).Ok? {
      var walk := Walk(MemberIds(ItemsOf(fields)).value, o, dir, d);
      WalkTargets(MemberIds(ItemsOf(fields)).value, o, dir, d);
      match LinkOf(fields, "next")
      case Some(id) =>
        TargetsOne(Enqueue(Page(id, o, dir, d)));
        TargetsJoin(walk, [Enqueue(Page(id, o, dir, d))]);
      case None =>
        TargetsJoin(walk, []);
    }
  }

  lemma {:induction false} ActorPlanTargets(env: Env, a: string, d: int)
    ensures Targets(ActorPlan(env, a, d)) == Successors(env, Actor(a, d))
  {
    hide Targets, CollectionJobs, OwnCollection;
    TargetsOne(Raise);
    if Fits(a) {
      match env.fetch(a)
      case Broken =>
        TargetsJoin([Ensure([a]), StopIfFetched(a)], [Raise]);
      case HttpStatus(_) =>
        TargetsJoin([Ensure([a]), StopIfFetched(a)], [SaveActor(a, d, false)]);
      case Document(fields) =>
        var jobs := CollectionJobs(fields, a, d);
        CollectionJobsTargets(fields, a, d);
        TargetsJoin(jobs, [SaveActor(a, d, true)]);
        TargetsOne(SaveActor(a, d, true));
        TargetsJoin([Ensure([a]), StopIfFetched(a)], jobs + [SaveActor(a, d, true)]);
    }
  }

  lemma {:induction false} CollectionJobsTargets(fields: seq<(string, Json)>, a: string, d: int)
    ensures Targets(CollectionJobs(fields, a, d)) ==
            OwnCollection(fields, a, Followers, d) + OwnCollection(fields, a, Following, d)
  {
    var p := match GetStr(fields, "followers")
      case Some(c) => [Enqueue(Collection(c, a, Followers, d))] case None => [];
    var q := match GetStr(fields, "following")
      case Some(c) => [Enqueue(Collection(c, a, Following, d))] case None => [];
    if p != [] {
      TargetsOne(p[0]);
    }
    if q != [] {
      TargetsOne(q[0]);
    }
    TargetsJoin(p, q);
  }

  /** The calls of a handler offer exactly the jobs the web says it discovers. */
  lemma {:induction false} PlanDiscoversSuccessors(env: Env, job: Job)
    ensures Targets(Plan(env, job)) == Successors(env, job)
  {
    TargetsOne(Raise);
    match job
    case Webfinger(h) =>
      if env.actorOf(h).Some? && Fits(env.actorOf(h).value) {
        var a := env.actorOf(h).value;
        assert WebfingerPlan(env, h)[2] == QueueUnfetched([a], 0);
      }
    case Actor(a, d) => ActorPlanTargets(env, a, d);
    case Collection(c, o, dir, d) =>
      if Fits(o) {
        match env.fetch(c)
        case Broken => TargetsJoin([Ensure([o])], [Raise]);
        case HttpStatus(_) => TargetsJoin([Ensure([o])], []);
        case Document(fields) =>
          TargetsJoin([Ensure([o])], CollectionWalk(env, fields, o, dir, d));
          CollectionWalkTargets(env, fields, c, o, dir, d);
      }
    case Page(p, o, dir, d) =>
      if Fits(o) {
        match env.fetch(p)
        case Broken => TargetsJoin([Ensure([o])], [Raise]);
        case HttpStatus(_) => TargetsJoin([Ensure([o])], []);
        case Document(fields) =>
          TargetsJoin([Ensure([o])], PageWalk(fields, o, dir, d));
          PageWalkTargets(fields, o, dir, d);
      }
  }
}
