/**
 Crawl jobs, the dictionaries they travel as, and the id that deduplicates them
 (pub_crawler/job_id.py).
 */
module Jobs {
  import opened Options
  import opened JsonValues

  datatype Direction = Followers | Following

  datatype Job =
    | Webfinger(handle: string)
    | Actor(actorId: string, depth: int)
    | Collection(collectionId: string, owner: string, direction: Direction, depth: int)
    | Page(pageId: string, owner: string, direction: Direction, depth: int)

  /** A webfinger job carries no depth; the dispatcher reads the missing depth as 0. */
  function Depth(job: Job): int {
    if job.Webfinger? then 0 else job.depth
  }

  function TypeName(job: Job): string {
    match job
    case Webfinger(_) => "webfinger"
    case Actor(_, _) => "actor"
    case Collection(_, _, _, _) => "collection"
    case Page(_, _, _, _) => "page"
  }

  function TypeCode(job: Job): nat {
    match job
    case Webfinger(_) => 10
    case Actor(_, _) => 20
    case Collection(_, _, _, _) => 30
    case Page(_, _, _, _) => 40
  }

  /** The thing on the web the job is about; with the type, its identity. */
  function Target(job: Job): string {
    match job
    case Webfinger(h) => h
    case Actor(a, _) => a
    case Collection(c, _, _, _) => c
    case Page(p, _, _, _) => p
  }

  /** Two jobs name the same resource when their types and targets agree;
      owner, direction and depth do not count. */
  predicate SameResource(a: Job, b: Job) {
    TypeCode(a) == TypeCode(b) && Target(a) == Target(b)
  }

  function DirectionName(d: Direction): string {
    match d
    case Followers => "followers"
    case Following => "following"
  }

  /** The dictionary of a job, keys in the sorted order `orjson.OPT_SORT_KEYS` writes. */
  function ToDict(job: Job): seq<(string, Json)> {
    match job
    case Webfinger(h) =>
      [("job_type", Str("webfinger")), ("webfinger", Str(h))]
    case Actor(a, d) =>
      [("actor_id", Str(a)), ("depth", Int(d)), ("job_type", Str("actor"))]
    case Collection(c, o, dir, d) =>
      [("collection_id", Str(c)), ("depth", Int(d)), ("direction", Str(DirectionName(dir))),
       ("job_type", Str("collection")), ("owner_id", Str(o))]
    case Page(p, o, dir, d) =>
      [("depth", Int(d)), ("direction", Str(DirectionName(dir))), ("job_type", Str("page")),
       ("owner_id", Str(o)), ("page_id", Str(p))]
  }

  /** The job a handler takes a dictionary for: it reads what it needs under these keys
      (the `handle` methods of the four handlers), and raises when one is missing. */
  function FromDict(fields: seq<(string, Json)>): Option<Job> {
    match Get(fields, "job_type")
    case Some(Str("webfinger")) =>
      (match Get(fields, "webfinger") case Some(Str(h)) => Some(Webfinger(h)) case _ => None)
    case Some(Str("actor")) =>
      (match (Get(fields, "actor_id"), Get(fields, "depth"))
       case (Some(Str(a)), Some(Int(d))) => Some(Actor(a, d))
       case _ => None)
    case Some(Str("collection")) =>
      (match (Get(fields, "collection_id"), Get(fields, "owner_id"), Way(fields), Get(fields, "depth"))
       case (Some(Str(c)), Some(Str(o)), Some(dir), Some(Int(d))) => Some(Collection(c, o, dir, d))
       case _ => None)
    case Some(Str("page")) =>
      (match (Get(fields, "page_id"), Get(fields, "owner_id"), Way(fields), Get(fields, "depth"))
       case (Some(Str(p)), Some(Str(o)), Some(dir), Some(Int(d))) => Some(Page(p, o, dir, d))
       case _ => None)
    case _ => None
  }

  /** `job["direction"]`, where `handle_items` knows two. */
  function Way(fields: seq<(string, Json)>): Option<Direction> {
    match Get(fields, "direction")
    case Some(Str("followers")) => Some(Followers)
    case Some(Str("following")) => Some(Following)
    case _ => None
  }

  /** A handler reads in the dictionary the job it was written for. */
  lemma {:induction false} FromToDict(job: Job)
    ensures FromDict(ToDict(job)) == Some(job)
  {
    hide Get;
    var fields := ToDict(job);
    match job
    case Webfinger(_) => GetAt(fields, 0); GetAt(fields, 1);
    case Actor(_, _) => GetAt(fields, 0); GetAt(fields, 1); GetAt(fields, 2);
    case Collection(_, _, _, _) => GetAt(fields, 0); GetAt(fields, 1); GetAt(fields, 2); GetAt(fields, 3); GetAt(fields, 4);
    case Page(_, _, _, _) => GetAt(fields, 0); GetAt(fields, 1); GetAt(fields, 2); GetAt(fields, 3); GetAt(fields, 4);
  }

  /** `job_id(job)`. `show` is Python's `str()` of a value inside an f-string. */
  function JobId(job: Json, show: Json -> string): Option<string> {
    if !job.Obj? then None
    else match Get(job.fields, "job_type")
      case Some(Str("actor")) => Keyed(job.fields, "actor", "actor_id", show)
      case Some(Str("webfinger")) => Keyed(job.fields, "webfinger", "webfinger", show)
      case Some(Str("collection")) => Keyed(job.fields, "collection", "collection_id", show)
      case Some(Str("page")) => Keyed(job.fields, "page", "page_id", show)
      case _ => None
  }

  function Keyed(fields: seq<(string, Json)>, kind: string, key: string, show: Json -> string): Option<string> {
    match Get(fields, key)
    case Some(v) => Some(kind + ":" + show(v))
    case None => None
  }

  /** The id of a job the crawler built itself. */
  function Id(job: Job): string {
    TypeName(job) + ":" + Target(job)
  }

  /** The key under which a dictionary of each type has its target. */
  ghost predicate TargetKey(kind: string, key: string) {
    (kind, key) in {("actor", "actor_id"), ("webfinger", "webfinger"), ("collection", "collection_id"), ("page", "page_id")}
  }

  ghost predicate Named(fields: seq<(string, Json)>, kind: string, key: string, v: Json) {
    TargetKey(kind, key) && Get(fields, "job_type") == Some(Str(kind)) && Get(fields, key) == Some(v)
  }

  /** A value has an id exactly when it is a dictionary of a known type with its target. */
  lemma {:induction false} JobIdOfAny(job: Json, show: Json -> string, id: string)
    ensures JobId(job, show) == Some(id) <==>
            job.Obj? && exists kind, key, v :: Named(job.fields, kind, key, v) && id == kind + ":" + show(v)
  {
    hide Get;
    if job.Obj? {
      var fields := job.fields;
      assert TargetKey("actor", "actor_id") && TargetKey("webfinger", "webfinger");
      assert TargetKey("collection", "collection_id") && TargetKey("page", "page_id");
      forall kind, key | TargetKey(kind, key) && Get(fields, "job_type") == Some(Str(kind)) && Get(fields, key).Some?
        ensures Named(fields, kind, key, Get(fields, key).value)
      {
      }
    }
  }

  /** Every job the crawler builds is identifiable, and `job_id` reads off its
      type and target. */
  lemma {:induction false} JobIdOfDict(job: Job, show: Json -> string)
    requires forall s :: show(Str(s)) == s
    ensures JobId(Obj(ToDict(job)), show) == Some(Id(job))
  {
    hide Get;
    var fields := ToDict(job);
    match job
    case Webfinger(_) => GetAt(fields, 0); GetAt(fields, 1);
    case Actor(_, _) => GetAt(fields, 0); GetAt(fields, 2);
    case Collection(_, _, _, _) => GetAt(fields, 0); GetAt(fields, 3);
    case Page(_, _, _, _) => GetAt(fields, 2); GetAt(fields, 4);
  }

  /** The id is exactly the dedupe identity: equal ids mean the same type and target. */
  lemma {:induction false} IdIdentifiesResource(a: Job, b: Job)
    ensures Id(a) == Id(b) <==> SameResource(a, b)
  {
    if Id(a) == Id(b) {
      assert Id(a)[0] == TypeName(a)[0];
      assert Id(b)[0] == TypeName(b)[0];
      assert TypeName(a) == TypeName(b);
      var n := |TypeName(a)| + 1;
      assert Id(a)[n..] == Target(a);
      assert Id(b)[n..] == Target(b);
    }
  }
}
