/**
 The four handlers (webfinger_handler.py, actor_handler.py, collection_handler.py
 and page_handler.py of pub_crawler). Each `Handle` makes the calls of its job's
 plan, one by one, and answers whether it returned or raised.
 */
module Handling {
  import opened Options
  import opened JsonValues
  import opened Jobs
  import opened GraphTables
  import opened CachedGraph
  import opened Web
  import opened Protocol
  import opened GraphView
  import opened Clocks
  import opened Dispatching
  import opened Ingestion

  // ---- single graph calls ----

  /** `ensure_node`, which raises when the label does not fit its column. */
  method EnsureOne(world: World, ghost c: nat, node: string, ghost owner: Option<Job>, ghost rest: seq<Action>)
    returns (ok: bool)
    requires world.Valid() && world.Stands(c, Working(owner, if Fits(node) then [Ensure([node])] + rest else [Raise]))
    modifies world, world.graph
    ensures ok <==> Fits(node)
    ensures ok ==> world.Went(c, Working(owner, rest)) && node in world.at.graph.nodes
    ensures !ok ==> world.Went(c, Working(owner, [Raise]))
    ensures world.PopsNothing(c)
  {
    hide Leads, Clocked, PoppedBy, Agrees, NodesOk, LinksOk, EdgesShown, DepthsShown, FetchesShown;
    EnsureRaises(world.graph.tables, [node]);
    assert [node][0] == node;
    var answer := world.graph.EnsureNode(node);
    ok := answer.Done?;
    if ok {
      ShowsEnsure(old(world.graph.tables), world.at.graph, [node]);
      InElements([node], node);
      assert ([Ensure([node])] + rest)[1..] == rest;
      world.TookAct(c, []);
    }
  }

  /** The node carries these properties. */
  ghost predicate Carries(t: Tables, node: string, props: map<string, Json>) {
    forall n :: n in props ==> Prop(t, node, n) == Some(props[n])
  }

  /** Properties the crawl never reads back. No others change. */
  method SetProps(world: World, ghost c: nat, node: string, props: map<string, Json>, ghost pc: Pc)
    requires world.Valid() && world.Stands(c, pc) && DEPTH !in props && LAST_FETCH !in props
    modifies world.graph
    ensures world.Went(c, pc) && world.at == old(world.at)
    ensures node in world.at.graph.nodes ==> Carries(world.graph.tables, node, props)
    ensures forall l, n :: l != node || n !in props ==> Prop(world.graph.tables, l, n) == old(Prop(world.graph.tables, l, n))
    ensures OnlyNodeProps(old(world.graph.tables), world.graph.tables)
  {
    hide Leads, Clocked, PoppedBy, Agrees, EdgesShown, DepthsShown, FetchesShown, LinksOk, UpsertNodeProps, Prop;
    ShowsOtherProps(world.graph.tables, world.at.graph, One(IdOf(world.graph.tables, node)), props);
    ghost var t := world.graph.tables;
    var answer := world.graph.SetNodeProperties(node, props);
    PropsAfter(t, node, props);
  }

  lemma {:induction false} PropsAfter(t: Tables, node: string, props: map<string, Json>)
    requires WellFormed(t)
    ensures var t' := UpsertNodeProps(t, One(IdOf(t, node)), props);
            && (node in t.ids ==> Carries(t', node, props)) && OnlyNodeProps(t, t')
            && forall l, n :: l != node || n !in props ==> Prop(t', l, n) == Prop(t, l, n)
  {
    hide Prop;
    forall l, n
      ensures Prop(UpsertNodeProps(t, One(IdOf(t, node)), props), l, n) == if l == node && l in t.ids && n in props then Some(props[n]) else Prop(t, l, n)
    {
      PropAfterUpsert(t, One(IdOf(t, node)), props, l, n);
    }
  }

  function Key(direction: Direction, what: string): (key: string)
    ensures key != DEPTH && key != LAST_FETCH
  {
    var key := DirectionName(direction) + "_" + what;
    assert key[0] == 'f' && DEPTH[0] == 'd' && LAST_FETCH[0] == 'l';
    key
  }

  lemma {:induction false} KeysDiffer(direction: Direction)
    ensures Key(direction, "last_page") != Key(direction, "pages_complete")
    ensures Key(direction, "pages_complete") != Key(direction, "last_page_http_status")
    ensures Key(direction, "last_page") != Key(direction, "last_page_http_status")
  {
    var name := DirectionName(direction) + "_";
    assert Key(direction, "last_page")[|name|..] == "last_page";
    assert Key(direction, "pages_complete")[|name|..] == "pages_complete";
    assert Key(direction, "last_page_http_status")[|name|..] == "last_page_http_status";
  }

  ghost function PageTodo(link: Option<string>, owner_id: string, direction: Direction, depth: int): seq<Action> {
    match link
    case Some(id) => [Enqueue(Page(id, owner_id, direction, depth))]
    case None => []
  }

  /** A page job for a `first` or `next` link, if there is one. */
  method QueuePage(dispatcher: Dispatcher, ghost c: nat, link: Option<string>, owner_id: string, direction: Direction, depth: int,
                   ghost owner: Option<Job>)
    requires dispatcher.world.Valid()
    requires dispatcher.world.Stands(c, Working(owner, PageTodo(link, owner_id, direction, depth)))
    modifies dispatcher.world, dispatcher.world.graph
    ensures dispatcher.world.Went(c, Working(owner, []))
    ensures dispatcher.world.PopsNothing(c)
  {
    hide World.Valid, PoppedBy;
    if link.Some? {
      ghost var page := Page(link.value, owner_id, direction, depth);
      assert [Enqueue(page)] + [] == [Enqueue(page)];
      var added := dispatcher.EnqueueIfUnseen(c, Page(link.value, owner_id, direction, depth), owner, []);
    }
  }

  // ---- webfinger ----

  class WebfingerHandler {
    const dispatcher: Dispatcher

    constructor (dispatcher: Dispatcher)
      ensures this.dispatcher == dispatcher
    {
      this.dispatcher := dispatcher;
    }

    method Handle(ghost c: nat, wf: string) returns (ok: bool)
      requires dispatcher.world.Valid()
      requires dispatcher.world.Stands(c, Working(Some(Webfinger(wf)), WebfingerPlan(dispatcher.world.env, wf)))
      modifies dispatcher.world, dispatcher.world.graph
      ensures ok ==> dispatcher.world.Went(c, Working(Some(Webfinger(wf)), []))
      ensures !ok ==> dispatcher.world.Went(c, Working(Some(Webfinger(wf)), [Raise]))
      ensures dispatcher.world.PopsNothing(c)
    {
      hide World.Valid, PoppedBy;
      var world := dispatcher.world;
      ghost var owner := Some(Webfinger(wf));
      world.Await(c);
      var actor_id := world.env.actorOf(wf);
      if actor_id.None? {
        return false;
      }
      var a := actor_id.value;
      ghost var todo := [StampDepth([a], 0), QueueUnfetched([a], 0)];
      assert [Ensure([a])] + todo == [Ensure([a]), StampDepth([a], 0), QueueUnfetched([a], 0)];
      ok := EnsureOne(world, c, a, owner, todo);
      if ok {
        Seed(c, a, owner);
      }
    }

    /** Depth 0 for an actor without a depth, and its job unless it was fetched. */
    method Seed(ghost c: nat, actor_id: string, ghost owner: Option<Job>)
      requires dispatcher.world.Valid() && actor_id in dispatcher.world.at.graph.nodes
      requires dispatcher.world.Stands(c, Working(owner, [StampDepth([actor_id], 0), QueueUnfetched([actor_id], 0)]))
      modifies dispatcher.world, dispatcher.world.graph
      ensures dispatcher.world.Went(c, Working(owner, []))
      ensures dispatcher.world.PopsNothing(c)
    {
      hide World.Valid, PoppedBy;
      dispatcher.world.Await(c);
      ghost var todo := [QueueUnfetched([actor_id], 0)];
      assert [StampDepth([actor_id], 0), QueueUnfetched([actor_id], 0)] == [StampDepth([actor_id], 0)] + todo;
      StampOne(dispatcher.world, c, actor_id, owner, todo);
      dispatcher.world.Await(c);
      QueueOne(c, actor_id, owner);
    }

    method QueueOne(ghost c: nat, actor_id: string, ghost owner: Option<Job>)
      requires dispatcher.world.Valid() && dispatcher.world.Stands(c, Working(owner, [QueueUnfetched([actor_id], 0)]))
      modifies dispatcher.world, dispatcher.world.graph
      ensures dispatcher.world.Went(c, Working(owner, []))
      ensures dispatcher.world.PopsNothing(c)
    {
      hide World.Valid, PoppedBy;
      var fetched := ReadFetched(dispatcher.world, c, actor_id, owner);
      if !fetched {
        assert [Enqueue(Actor(actor_id, 0))] == [Enqueue(Actor(actor_id, 0))] + [];
        var added := dispatcher.EnqueueIfUnseen(c, Actor(actor_id, 0), owner, []);
      }
    }

    method ReadFetched(world: World, ghost c: nat, actor_id: string, ghost owner: Option<Job>) returns (fetched: bool)
      requires world.Valid() && world.Stands(c, Working(owner, [QueueUnfetched([actor_id], 0)]))
      modifies world, world.graph
      ensures fetched ==> world.Went(c, Working(owner, []))
      ensures !fetched ==> world.Went(c, Working(owner, [Enqueue(Actor(actor_id, 0))]))
      ensures world.PopsNothing(c)
    {
      hide Leads, Clocked, PoppedBy, Agrees, NodesOk, LinksOk;
      assert actor_id in world.at.graph.fetched <==> Prop(world.graph.tables, actor_id, LAST_FETCH).Some?;
      var last_fetch_date := world.graph.GetNodeProperty(actor_id, LAST_FETCH);
      fetched := last_fetch_date.v.Some? && Truthy(last_fetch_date.v.value);
      ghost var order := if fetched then [] else [actor_id];
      OneUnfetched(world.at.graph, actor_id, order);
      world.TookAct(c, order);
    }

    lemma {:induction false} OneUnfetched(g: Graph, actor_id: string, order: seq<string>)
      requires order == if actor_id in g.fetched then [] else [actor_id]
      ensures Answers(g, QueueUnfetched([actor_id], 0), order)
      ensures Remaining(g, [QueueUnfetched([actor_id], 0)], order) ==
              if actor_id in g.fetched then [] else [Enqueue(Actor(actor_id, 0))]
    {
      assert Elements([actor_id]) == {actor_id};
    }

    method StampOne(world: World, ghost c: nat, actor_id: string, ghost owner: Option<Job>, ghost rest: seq<Action>)
      requires world.Valid() && world.Stands(c, Working(owner, [StampDepth([actor_id], 0)] + rest))
      requires actor_id in world.at.graph.nodes
      modifies world, world.graph
      ensures world.Went(c, Working(owner, rest))
      ensures world.PopsNothing(c)
    {
      hide World.Valid, PoppedBy;
      var depth := ReadDepth(world, c, actor_id, owner, rest);
      if depth.None? {
        world.Await(c);
        WriteZero(world, c, actor_id, owner, rest);
      } else {
        assert ([WriteDepth([], 0)] + rest)[1..] == rest;
        WriteNothing(world, c, owner, rest);
      }
    }

    method ReadDepth(world: World, ghost c: nat, actor_id: string, ghost owner: Option<Job>, ghost rest: seq<Action>)
      returns (depth: Option<Json>)
      requires world.Valid() && world.Stands(c, Working(owner, [StampDepth([actor_id], 0)] + rest))
      modifies world, world.graph
      ensures world.Went(c, Working(owner, [WriteDepth(if depth.None? then [actor_id] else [], 0)] + rest))
      ensures world.PopsNothing(c)
    {
      hide Leads, Clocked, PoppedBy, Agrees, NodesOk, LinksOk, EdgesShown, FetchesShown;
      InElements([actor_id], actor_id);
      assert Prop(world.graph.tables, actor_id, DEPTH).Some? <==> actor_id in world.at.graph.depth;
      var answer := world.graph.GetNodeProperty(actor_id, DEPTH);
      depth := answer.v;
      ghost var order := if depth.None? then [actor_id] else [];
      assert Elements([actor_id]) == {actor_id};
      assert Elements(order) == Elements([actor_id]) - world.at.graph.depth.Keys;
      assert ([StampDepth([actor_id], 0)] + rest)[1..] == rest;
      world.TookAct(c, order);
    }

    method WriteZero(world: World, ghost c: nat, actor_id: string, ghost owner: Option<Job>, ghost rest: seq<Action>)
      requires world.Valid() && world.Stands(c, Working(owner, [WriteDepth([actor_id], 0)] + rest))
      requires actor_id in world.at.graph.nodes
      modifies world, world.graph
      ensures world.Went(c, Working(owner, rest))
      ensures world.PopsNothing(c)
    {
      hide Leads, Clocked, PoppedBy, Agrees, NodesOk, LinksOk, EdgesShown, DepthsShown, FetchesShown;
      ShowsWriteOne(world.graph.tables, world.at.graph, actor_id, 0);
      assert ([WriteDepth([actor_id], 0)] + rest)[1..] == rest;
      var answer := world.graph.SetNodeProperty(actor_id, DEPTH, Int(0));
      world.TookAct(c, []);
    }

    /** The depth was there: nothing to write. */
    ghost method WriteNothing(world: World, c: nat, owner: Option<Job>, rest: seq<Action>)
      requires world.Valid() && world.Stands(c, Working(owner, [WriteDepth([], 0)] + rest))
      modifies world`at, world`run, world`steps, world`times
      ensures world.Went(c, Working(owner, rest))
      ensures world.PopsNothing(c)
    {
      hide Leads, Clocked, PoppedBy, Agrees, NodesOk, LinksOk, EdgesShown, DepthsShown, FetchesShown;
      assert ([WriteDepth([], 0)] + rest)[1..] == rest;
      var empty: map<string, int> := map id | id in [] :: 0;
      assert world.at.graph.depth + empty == world.at.graph.depth;
      assert Affect(world.at.graph, WriteDepth([], 0)) == world.at.graph;
      world.TookAct(c, []);
    }
  }

  // ---- actor ----

  /** What a visit leaves on an actor's node. */
  ghost predicate ActorRecorded(t: Tables, actor_id: string, depth: int, fetch: Fetch) {
    Prop(t, actor_id, "depth") == Some(Int(depth)) &&
    match fetch
    case Broken => true
    case HttpStatus(code) => Prop(t, actor_id, "http_status") == Some(Int(code))
    case Document(fields) =>
      && Prop(t, actor_id, "http_status") == Some(Int(200))
      && Prop(t, actor_id, "last_fetch_date").Some? && Truthy(Prop(t, actor_id, "last_fetch_date").value)
      && (forall u :: Get(fields, "followers") == Some(Str(u)) ==> Prop(t, actor_id, "followers") == Some(Str(u)))
      && (forall u :: Get(fields, "following") == Some(Str(u)) ==> Prop(t, actor_id, "following") == Some(Str(u)))
  }

  class ActorHandler {
    const dispatcher: Dispatcher

    constructor (dispatcher: Dispatcher)
      ensures this.dispatcher == dispatcher
    {
      this.dispatcher := dispatcher;
    }

    method Handle(ghost c: nat, actor_id: string, depth: int) returns (ok: bool)
      requires dispatcher.world.Valid()
      requires dispatcher.world.Stands(c, Working(Some(Actor(actor_id, depth)), ActorPlan(dispatcher.world.env, actor_id, depth)))
      modifies dispatcher.world, dispatcher.world.graph
      ensures ok ==> dispatcher.world.Went(c, Working(Some(Actor(actor_id, depth)), []))
      ensures !ok ==> dispatcher.world.Went(c, Working(Some(Actor(actor_id, depth)), [Raise]))
      ensures dispatcher.world.PopsNothing(c)
    {
      hide World.Valid, PoppedBy;
      var world := dispatcher.world;
      ghost var owner := Some(Actor(actor_id, depth));
      ghost var visit := [StopIfFetched(actor_id)] + FetchPlan(actor_id, depth);
      assert Fits(actor_id) ==> ActorPlan(world.env, actor_id, depth) == [Ensure([actor_id])] + visit;
      ok := EnsureOne(world, c, actor_id, owner, visit);
      if ok {
        ok := Visit(c, actor_id, depth, owner);
      }
    }

    method Visit(ghost c: nat, actor_id: string, depth: int, ghost owner: Option<Job>) returns (ok: bool)
      requires dispatcher.world.Valid() && actor_id in dispatcher.world.at.graph.nodes
      requires dispatcher.world.Stands(c, Working(owner, [StopIfFetched(actor_id)] + FetchPlan(actor_id, depth)))
      modifies dispatcher.world, dispatcher.world.graph
      ensures ok ==> dispatcher.world.Went(c, Working(owner, []))
      ensures !ok ==> dispatcher.world.Went(c, Working(owner, [Raise]))
      ensures dispatcher.world.PopsNothing(c)
    {
      hide World.Valid, PoppedBy, FetchPlan, Fits;
      dispatcher.world.Await(c);
      var skip := AlreadyFetched(dispatcher.world, c, actor_id, owner, FetchPlan(actor_id, depth));
      ok := true;
      if !skip {
        ok := Fetch(c, actor_id, depth, owner);
      }
    }

    /** The skip guard. */
    method AlreadyFetched(world: World, ghost c: nat, actor_id: string, ghost owner: Option<Job>, ghost rest: seq<Action>)
      returns (skip: bool)
      requires world.Valid() && world.Stands(c, Working(owner, [StopIfFetched(actor_id)] + rest))
      modifies world, world.graph
      ensures skip ==> world.Went(c, Working(owner, []))
      ensures !skip ==> world.Went(c, Working(owner, rest))
      ensures world.PopsNothing(c)
    {
      hide Leads, Clocked, PoppedBy, Agrees, NodesOk, LinksOk, EdgesShown, DepthsShown;
      assert actor_id in world.at.graph.fetched <==> Prop(world.graph.tables, actor_id, LAST_FETCH).Some?;
      var last_fetch_date := world.graph.GetNodeProperty(actor_id, LAST_FETCH);
      skip := last_fetch_date.v.Some? && Truthy(last_fetch_date.v.value);
      assert ([StopIfFetched(actor_id)] + rest)[1..] == rest;
      world.TookAct(c, []);
    }

    ghost function FetchPlan(actor_id: string, depth: int): seq<Action>
    {
      match dispatcher.world.env.fetch(actor_id)
      case Broken => [Raise]
      case HttpStatus(_) => [SaveActor(actor_id, depth, false)]
      case Document(fields) => CollectionJobs(fields, actor_id, depth) + [SaveActor(actor_id, depth, true)]
    }

    method Fetch(ghost c: nat, actor_id: string, depth: int, ghost owner: Option<Job>) returns (ok: bool)
      requires dispatcher.world.Valid() && actor_id in dispatcher.world.at.graph.nodes
      requires dispatcher.world.Stands(c, Working(owner, FetchPlan(actor_id, depth)))
      modifies dispatcher.world, dispatcher.world.graph
      ensures ok ==> dispatcher.world.Went(c, Working(owner, []))
      ensures ok ==> ActorRecorded(dispatcher.world.graph.tables, actor_id, depth, dispatcher.world.env.fetch(actor_id))
      ensures !ok ==> dispatcher.world.Went(c, Working(owner, [Raise]))
      ensures dispatcher.world.PopsNothing(c)
    {
      hide World.Valid, PoppedBy;
      dispatcher.world.Await(c);
      assert [] + [SaveActor(actor_id, depth, false)] == [SaveActor(actor_id, depth, false)];
      var fetch := dispatcher.world.env.fetch(actor_id);
      if fetch.Broken? {
        return false;
      }
      Keep(c, actor_id, depth, fetch, owner);
      ok := true;
    }

    /** An answer came: the collections of a document, then the actor's properties. */
    method Keep(ghost c: nat, actor_id: string, depth: int, fetch: Fetch, ghost owner: Option<Job>)
      requires dispatcher.world.Valid() && actor_id in dispatcher.world.at.graph.nodes && !fetch.Broken?
      requires dispatcher.world.Stands(c, Working(owner,
                 (if fetch.Document? then CollectionJobs(fetch.fields, actor_id, depth) else []) + [SaveActor(actor_id, depth, fetch.Document?)]))
      modifies dispatcher.world, dispatcher.world.graph
      ensures dispatcher.world.Went(c, Working(owner, [])) && dispatcher.world.PopsNothing(c)
      ensures ActorRecorded(dispatcher.world.graph.tables, actor_id, depth, fetch)
    {
      hide World.Valid, PoppedBy, CollectionJobs, Carries, ActorRecorded, GetStr;
      var props := Profile(dispatcher.world, fetch, depth);
      assert [] + [SaveActor(actor_id, depth, false)] == [SaveActor(actor_id, depth, false)];
      if fetch.Document? {
        QueueCollections(c, fetch.fields, actor_id, depth, owner, [SaveActor(actor_id, depth, true)]);
        dispatcher.world.Await(c);
      }
      Save(dispatcher.world, c, actor_id, depth, fetch.Document?, props, owner);
      ActorWritten(dispatcher.world.graph.tables, actor_id, depth, fetch, props);
    }

    lemma {:induction false} ActorWritten(t: Tables, actor_id: string, depth: int, fetch: Fetch, props: map<string, Json>)
      requires Carries(t, actor_id, props) && !fetch.Broken? && DEPTH in props && props[DEPTH] == Int(depth)
      requires "http_status" in props && props["http_status"] == Int(if fetch.Document? then 200 else fetch.code)
      requires fetch.Document? ==> LAST_FETCH in props && Truthy(props[LAST_FETCH])
      requires fetch.Document? ==> forall k :: k in ["followers", "following"] ==>
                 (k in props <==> GetStr(fetch.fields, k).Some?) && (k in props ==> props[k] == Str(GetStr(fetch.fields, k).value))
      ensures ActorRecorded(t, actor_id, depth, fetch)
    {
      hide Prop, Truthy;
    }

    /** The properties the actor's node gets. */
    method Profile(world: World, fetch: Fetch, depth: int) returns (props: map<string, Json>)
      ensures DEPTH in props && props[DEPTH] == Int(depth)
      ensures if fetch.Document? then LAST_FETCH in props && Truthy(props[LAST_FETCH]) else LAST_FETCH !in props
      ensures fetch.HttpStatus? ==> "http_status" in props && props["http_status"] == Int(fetch.code)
      ensures fetch.Document? ==> "http_status" in props && props["http_status"] == Int(200)
      ensures fetch.Document? ==> forall k :: k in ["followers", "following"] ==>
                (k in props <==> GetStr(fetch.fields, k).Some?) && (k in props ==> props[k] == Str(GetStr(fetch.fields, k).value))
    {
      props := map[DEPTH := Int(depth)];
      match fetch
      case Broken =>
      case HttpStatus(code) =>
        props := props["http_status" := Int(code)];
      case Document(fields) =>
        var today := world.Today();
        props := props["http_status" := Int(200)][LAST_FETCH := Str(today)] + Links(fields);
    }

    /** A collection job for each link the actor publishes. */
    method QueueCollections(ghost c: nat, fields: seq<(string, Json)>, actor_id: string, depth: int,
                            ghost owner: Option<Job>, ghost rest: seq<Action>)
      requires dispatcher.world.Valid()
      requires dispatcher.world.Stands(c, Working(owner, CollectionJobs(fields, actor_id, depth) + rest))
      modifies dispatcher.world, dispatcher.world.graph
      ensures dispatcher.world.Went(c, Working(owner, rest))
      ensures dispatcher.world.PopsNothing(c)
    {
      hide World.Valid, PoppedBy;
      CollectionTodo(fields, actor_id, depth, rest);
      QueueCollection(c, GetStr(fields, "followers"), actor_id, Followers, depth, owner,
                      LinkTodo(GetStr(fields, "following"), actor_id, Following, depth) + rest);
      QueueCollection(c, GetStr(fields, "following"), actor_id, Following, depth, owner, rest);
    }

    /** The links as properties of the actor. */
    function Links(fields: seq<(string, Json)>): (props: map<string, Json>)
      ensures DEPTH !in props && LAST_FETCH !in props
    {
      (match GetStr(fields, "followers") case Some(u) => map["followers" := Str(u)] case None => map[]) +
      (match GetStr(fields, "following") case Some(u) => map["following" := Str(u)] case None => map[])
    }

    lemma {:induction false} CollectionTodo(fields: seq<(string, Json)>, actor_id: string, depth: int, rest: seq<Action>)
      ensures CollectionJobs(fields, actor_id, depth) + rest ==
              LinkTodo(GetStr(fields, "followers"), actor_id, Followers, depth) +
              (LinkTodo(GetStr(fields, "following"), actor_id, Following, depth) + rest)
    {
    }

    ghost function LinkTodo(link: Option<string>, actor_id: string, direction: Direction, depth: int): seq<Action> {
      match link
      case Some(u) => [Enqueue(Collection(u, actor_id, direction, depth))]
      case None => []
    }

    method QueueCollection(ghost c: nat, link: Option<string>, actor_id: string, direction: Direction, depth: int,
                           ghost owner: Option<Job>, ghost rest: seq<Action>)
      requires dispatcher.world.Valid()
      requires dispatcher.world.Stands(c, Working(owner, LinkTodo(link, actor_id, direction, depth) + rest))
      modifies dispatcher.world, dispatcher.world.graph
      ensures dispatcher.world.Went(c, Working(owner, rest))
      ensures dispatcher.world.PopsNothing(c)
    {
      hide World.Valid, PoppedBy;
      if link.Some? {
        var added := dispatcher.EnqueueIfUnseen(c, Collection(link.value, actor_id, direction, depth), owner, rest);
      } else {
        assert [] + rest == rest;
      }
    }

    method Save(world: World, ghost c: nat, actor_id: string, depth: int, fetched: bool, props: map<string, Json>,
                ghost owner: Option<Job>)
      requires world.Valid() && world.Stands(c, Working(owner, [SaveActor(actor_id, depth, fetched)]))
      requires actor_id in world.at.graph.nodes && DEPTH in props && props[DEPTH] == Int(depth)
      requires if fetched then LAST_FETCH in props && Truthy(props[LAST_FETCH]) else LAST_FETCH !in props
      modifies world, world.graph
      ensures world.Went(c, Working(owner, []))
      ensures world.PopsNothing(c) && Carries(world.graph.tables, actor_id, props)
    {
      hide Leads, Clocked, PoppedBy, Agrees, NodesOk, LinksOk, EdgesShown, DepthsShown, FetchesShown, UpsertNodeProps, Carries;
      PropsAfter(world.graph.tables, actor_id, props);
      ShowsSaveActor(world.graph.tables, world.at.graph, actor_id, depth, fetched, props);
      assert [SaveActor(actor_id, depth, fetched)][1..] == [];
      var answer := world.graph.SetNodeProperties(actor_id, props);
      world.TookAct(c, []);
    }
  }

  // ---- collection ----

  /** What is recorded of a collection's members, below the depth limit. */
  function SharedProps(direction: Direction, fields: seq<(string, Json)>): map<string, Json> {
    var shared, complete := Key(direction, "members_shared"), Key(direction, "pages_complete");
    if KnownEmpty(fields) then map[shared := Bool(true)]
    else if Get(fields, "first").Some? then (if LinkOf(fields, "first").Some? then map[shared := Bool(true)] else map[])
    else if Truthy(ItemsOf(fields)) then map[shared := Bool(true)][complete := Bool(true)]
    else map[shared := Bool(false)]
  }

  /** What a fetched collection leaves on its owner's node. */
  function CollectionProps(direction: Direction, fields: seq<(string, Json)>, below: bool): map<string, Json> {
    var props := (if below then SharedProps(direction, fields) else map[])[Key(direction, "http_status") := Int(200)];
    match Get(fields, "totalItems")
    case Some(Int(n)) => props[Key(direction, "count") := Int(n)]
    case Some(Bool(b)) => props[Key(direction, "count") := Bool(b)]
    case _ => props
  }

  ghost predicate CollectionRecorded(t: Tables, owner_id: string, direction: Direction, below: bool, fetch: Fetch) {
    match fetch
    case Broken => true
    case HttpStatus(code) => Carries(t, owner_id, map[Key(direction, "http_status") := Int(code)])
    case Document(fields) => Carries(t, owner_id, CollectionProps(direction, fields, below))
  }

  class CollectionHandler {
    const dispatcher: Dispatcher

    constructor (dispatcher: Dispatcher)
      ensures this.dispatcher == dispatcher
    {
      this.dispatcher := dispatcher;
    }

    ghost function Owner(collection_id: string, owner_id: string, direction: Direction, depth: int): Option<Job> {
      Some(Collection(collection_id, owner_id, direction, depth))
    }

    method Handle(ghost c: nat, collection_id: string, owner_id: string, direction: Direction, depth: int) returns (ok: bool)
      requires dispatcher.world.Valid()
      requires dispatcher.world.Stands(c, Working(Owner(collection_id, owner_id, direction, depth),
                 Plan(dispatcher.world.env, Collection(collection_id, owner_id, direction, depth))))
      modifies dispatcher.world, dispatcher.world.graph
      ensures ok ==> dispatcher.world.Went(c, Working(Owner(collection_id, owner_id, direction, depth), []))
      ensures ok ==> CollectionRecorded(dispatcher.world.graph.tables, owner_id, direction, depth < dispatcher.world.env.maxDepth,
                       dispatcher.world.env.fetch(collection_id))
      ensures !ok ==> dispatcher.world.Went(c, Working(Owner(collection_id, owner_id, direction, depth), [Raise]))
      ensures dispatcher.world.PopsNothing(c)
    {
      hide World.Valid, PoppedBy, CollectionRecorded;
      var world := dispatcher.world;
      ghost var owner := Owner(collection_id, owner_id, direction, depth);
      ok := EnsureOne(world, c, owner_id, owner, FetchPlan(collection_id, owner_id, direction, depth));
      if ok {
        world.Await(c);
        ok := Fetch(c, collection_id, owner_id, direction, depth, owner);
      }
    }

    ghost function FetchPlan(collection_id: string, owner_id: string, direction: Direction, depth: int): seq<Action> {
      match dispatcher.world.env.fetch(collection_id)
      case Broken => [Raise]
      case HttpStatus(_) => []
      case Document(fields) => CollectionWalk(dispatcher.world.env, fields, owner_id, direction, depth)
    }

    method Fetch(ghost c: nat, collection_id: string, owner_id: string, direction: Direction, depth: int, ghost owner: Option<Job>)
      returns (ok: bool)
      requires dispatcher.world.Valid() && owner_id in dispatcher.world.at.graph.nodes
      requires dispatcher.world.Stands(c, Working(owner, FetchPlan(collection_id, owner_id, direction, depth)))
      modifies dispatcher.world, dispatcher.world.graph
      ensures ok ==> dispatcher.world.Went(c, Working(owner, []))
      ensures !ok ==> dispatcher.world.Went(c, Working(owner, [Raise]))
      ensures dispatcher.world.PopsNothing(c)
      ensures ok ==> CollectionRecorded(dispatcher.world.graph.tables, owner_id, direction, depth < dispatcher.world.env.maxDepth,
                       dispatcher.world.env.fetch(collection_id))
    {
      hide World.Valid, PoppedBy, Carries, CollectionProps, Prop;
      var world := dispatcher.world;
      var props: map<string, Json> := map[];
      match world.env.fetch(collection_id) {
        case Broken =>
          return false;
        case HttpStatus(code) =>
          props := map[Key(direction, "http_status") := Int(code)];
        case Document(fields) =>
          ok, props := ReadDocument(c, fields, owner_id, direction, depth, owner);
          if !ok {
            return;
          }
          world.Await(c);
      }
      SetProps(world, c, owner_id, props, Working(owner, []));
      ok := true;
    }

    method ReadDocument(ghost c: nat, fields: seq<(string, Json)>, owner_id: string, direction: Direction, depth: int,
                        ghost owner: Option<Job>)
      returns (ok: bool, props: map<string, Json>)
      requires dispatcher.world.Valid() && owner_id in dispatcher.world.at.graph.nodes
      requires dispatcher.world.Stands(c, Working(owner, CollectionWalk(dispatcher.world.env, fields, owner_id, direction, depth)))
      modifies dispatcher.world, dispatcher.world.graph
      ensures ok ==> dispatcher.world.Went(c, Working(owner, [])) && DEPTH !in props && LAST_FETCH !in props
      ensures !ok ==> dispatcher.world.Went(c, Working(owner, [Raise]))
      ensures dispatcher.world.PopsNothing(c)
      ensures ok ==> props == CollectionProps(direction, fields, depth < dispatcher.world.env.maxDepth)
    {
      hide World.Valid, PoppedBy, Walk, MemberIds, SharedProps;
      ok, props := true, map[];
      if depth < dispatcher.world.env.maxDepth {
        ok, props := WalkCollection(c, fields, owner_id, direction, depth, owner);
      }
      props := props[Key(direction, "http_status") := Int(200)];
      if Get(fields, "totalItems").Some? && (Get(fields, "totalItems").value.Int? || Get(fields, "totalItems").value.Bool?) {
        props := props[Key(direction, "count") := Get(fields, "totalItems").value];
      }
    }

    /** Below the depth limit: the first page, or the members listed inline. */
    method WalkCollection(ghost c: nat, fields: seq<(string, Json)>, owner_id: string, direction: Direction, depth: int,
                          ghost owner: Option<Job>)
      returns (ok: bool, props: map<string, Json>)
      requires dispatcher.world.Valid() && owner_id in dispatcher.world.at.graph.nodes && depth < dispatcher.world.env.maxDepth
      requires dispatcher.world.Stands(c, Working(owner, CollectionWalk(dispatcher.world.env, fields, owner_id, direction, depth)))
      modifies dispatcher.world, dispatcher.world.graph
      ensures ok ==> dispatcher.world.Went(c, Working(owner, [])) && DEPTH !in props && LAST_FETCH !in props
      ensures !ok ==> dispatcher.world.Went(c, Working(owner, [Raise]))
      ensures dispatcher.world.PopsNothing(c)
      ensures ok ==> props == SharedProps(direction, fields)
    {
      hide World.Valid, PoppedBy, Walk, MemberIds;
      ok, props := true, map[];
      if KnownEmpty(fields) {
        props := Shared(direction, true, false);
      } else if Get(fields, "first").Some? {
        var first_id := LinkOf(fields, "first");
        QueuePage(dispatcher, c, first_id, owner_id, direction, depth, owner);
        if first_id.Some? {
          props := Shared(direction, true, false);
        }
      } else {
        ok, props := WalkInline(c, ItemsOf(fields), owner_id, direction, depth, owner);
      }
    }

    method Shared(direction: Direction, shared: bool, complete: bool) returns (props: map<string, Json>)
      ensures DEPTH !in props && LAST_FETCH !in props
      ensures props == if complete then map[Key(direction, "members_shared") := Bool(shared)][Key(direction, "pages_complete") := Bool(true)]
                       else map[Key(direction, "members_shared") := Bool(shared)]
    {
      props := map[Key(direction, "members_shared") := Bool(shared)];
      if complete {
        props := props[Key(direction, "pages_complete") := Bool(true)];
      }
    }

    ghost function InlinePlan(items: Json, owner_id: string, direction: Direction, depth: int): seq<Action> {
      if !Truthy(items) then []
      else
        match MemberIds(items)
        case Raised => [Raise]
        case Ok(ids) => Walk(ids, owner_id, direction, depth)
    }

    method WalkInline(ghost c: nat, items: Json, owner_id: string, direction: Direction, depth: int, ghost owner: Option<Job>)
      returns (ok: bool, props: map<string, Json>)
      requires dispatcher.world.Valid() && owner_id in dispatcher.world.at.graph.nodes
      requires dispatcher.world.Stands(c, Working(owner, InlinePlan(items, owner_id, direction, depth)))
      modifies dispatcher.world, dispatcher.world.graph
      ensures ok ==> dispatcher.world.Went(c, Working(owner, []))
      ensures !ok ==> dispatcher.world.Went(c, Working(owner, [Raise]))
      ensures DEPTH !in props && LAST_FETCH !in props
      ensures props == if Truthy(items) then map[Key(direction, "members_shared") := Bool(true)][Key(direction, "pages_complete") := Bool(true)]
                       else map[Key(direction, "members_shared") := Bool(false)]
      ensures dispatcher.world.PopsNothing(c)
    {
      hide World.Valid, PoppedBy, Walk;
      ok := true;
      if Truthy(items) {
        InlineTodo(items, owner_id, direction, depth);
        ok := HandleItems(dispatcher, c, items, owner_id, direction, depth, owner, []);
      }
      props := Shared(direction, Truthy(items), Truthy(items));
    }

    lemma {:induction false} InlineTodo(items: Json, owner_id: string, direction: Direction, depth: int)
      ensures MemberIds(items).Ok? ==>
                Walk(MemberIds(items).value, owner_id, direction, depth) + [] == Walk(MemberIds(items).value, owner_id, direction, depth)
    {
    }
  }

  // ---- page ----

  /** All pages have been seen: this one has no members, or none comes after it. */
  predicate EndsHere(fetch: Fetch) {
    fetch.Document? && (!Truthy(ItemsOf(fetch.fields)) || Get(fetch.fields, "next").None?)
  }

  /** What is on record while a page is being fetched. */
  function Begun(direction: Direction, page_id: string): (props: map<string, Json>)
    ensures DEPTH !in props && LAST_FETCH !in props
  {
    map[Key(direction, "last_page") := Str(page_id), Key(direction, "pages_complete") := Bool(false)]
  }

  /** What a visit to a page leaves on the owner's node. */
  ghost predicate PageRecorded(t: Tables, page_id: string, owner_id: string, direction: Direction, fetch: Fetch) {
    fetch.Broken? ||
    (&& Prop(t, owner_id, Key(direction, "last_page")) == Some(Str(page_id))
     && Prop(t, owner_id, Key(direction, "last_page_http_status")) == Some(Int(if fetch.Document? then 200 else fetch.code))
     && Prop(t, owner_id, Key(direction, "pages_complete")) == Some(Bool(EndsHere(fetch))))
  }

  class PageHandler {
    const dispatcher: Dispatcher

    constructor (dispatcher: Dispatcher)
      ensures this.dispatcher == dispatcher
    {
      this.dispatcher := dispatcher;
    }

    ghost function Owner(page_id: string, owner_id: string, direction: Direction, depth: int): Option<Job> {
      Some(Page(page_id, owner_id, direction, depth))
    }

    method Handle(ghost c: nat, page_id: string, owner_id: string, direction: Direction, depth: int) returns (ok: bool)
      requires dispatcher.world.Valid()
      requires dispatcher.world.Stands(c, Working(Owner(page_id, owner_id, direction, depth),
                 Plan(dispatcher.world.env, Page(page_id, owner_id, direction, depth))))
      modifies dispatcher.world, dispatcher.world.graph
      ensures ok ==> dispatcher.world.Went(c, Working(Owner(page_id, owner_id, direction, depth), []))
      ensures ok ==> PageRecorded(dispatcher.world.graph.tables, page_id, owner_id, direction, dispatcher.world.env.fetch(page_id))
      ensures !ok ==> dispatcher.world.Went(c, Working(Owner(page_id, owner_id, direction, depth), [Raise]))
      ensures dispatcher.world.PopsNothing(c)
    {
      hide World.Valid, PoppedBy, PageRecorded;
      var world := dispatcher.world;
      ghost var owner := Owner(page_id, owner_id, direction, depth);
      ghost var todo := FetchPlan(page_id, owner_id, direction, depth);
      ok := EnsureOne(world, c, owner_id, owner, todo);
      if ok {
        ok := Visit(c, page_id, owner_id, direction, depth, owner);
      }
    }

    method Visit(ghost c: nat, page_id: string, owner_id: string, direction: Direction, depth: int, ghost owner: Option<Job>)
      returns (ok: bool)
      requires dispatcher.world.Valid() && owner_id in dispatcher.world.at.graph.nodes
      requires dispatcher.world.Stands(c, Working(owner, FetchPlan(page_id, owner_id, direction, depth)))
      modifies dispatcher.world, dispatcher.world.graph
      ensures ok ==> dispatcher.world.Went(c, Working(owner, []))
      ensures !ok ==> dispatcher.world.Went(c, Working(owner, [Raise]))
      ensures dispatcher.world.PopsNothing(c)
      ensures ok ==> PageRecorded(dispatcher.world.graph.tables, page_id, owner_id, direction, dispatcher.world.env.fetch(page_id))
    {
      hide World.Valid, PoppedBy, FetchPlan, PageRecorded;
      dispatcher.world.Await(c);
      Begin(dispatcher.world, c, page_id, owner_id, direction, Working(owner, FetchPlan(page_id, owner_id, direction, depth)));
      dispatcher.world.Await(c);
      ok := Fetch(c, page_id, owner_id, direction, depth, owner);
    }

    /** Progress is written before the fetch. */
    method Begin(world: World, ghost c: nat, page_id: string, owner_id: string, direction: Direction, ghost pc: Pc)
      requires world.Valid() && world.Stands(c, pc)
      modifies world.graph
      ensures world.Went(c, pc) && world.at == old(world.at)
      ensures owner_id in world.at.graph.nodes ==> Carries(world.graph.tables, owner_id, Begun(direction, page_id))
    {
      hide World.Valid, PoppedBy, Carries;
      SetProps(world, c, owner_id, Begun(direction, page_id), pc);
    }

    ghost function FetchPlan(page_id: string, owner_id: string, direction: Direction, depth: int): seq<Action> {
      match dispatcher.world.env.fetch(page_id)
      case Broken => [Raise]
      case HttpStatus(_) => []
      case Document(fields) => PageWalk(fields, owner_id, direction, depth)
    }

    method Fetch(ghost c: nat, page_id: string, owner_id: string, direction: Direction, depth: int,
                 ghost owner: Option<Job>)
      returns (ok: bool)
      requires dispatcher.world.Valid() && owner_id in dispatcher.world.at.graph.nodes
      requires dispatcher.world.Stands(c, Working(owner, FetchPlan(page_id, owner_id, direction, depth)))
      modifies dispatcher.world, dispatcher.world.graph
      ensures ok ==> dispatcher.world.Went(c, Working(owner, []))
      ensures ok ==> PageRecorded(dispatcher.world.graph.tables, page_id, owner_id, direction, dispatcher.world.env.fetch(page_id))
      ensures !ok ==> dispatcher.world.Went(c, Working(owner, [Raise]))
      ensures dispatcher.world.PopsNothing(c)
    {
      hide World.Valid, PoppedBy, Prop, Carries, Key, Begun, PageRecorded;
      var world := dispatcher.world;
      var fetch := world.env.fetch(page_id);
      if fetch.Broken? {
        return false;
      }
      var complete := false;
      if fetch.Document? {
        ok, complete := WalkPage(c, fetch.fields, owner_id, direction, depth, owner);
        if !ok {
          return;
        }
        world.Await(c);
      }
      var progress := Progress(direction, fetch, complete);
      SetProps(world, c, owner_id, Begun(direction, page_id) + progress, Working(owner, []));
      PageWritten(world.graph.tables, page_id, owner_id, direction, fetch, progress);
      ok := true;
    }

    lemma {:induction false} PageWritten(t: Tables, page_id: string, owner_id: string, direction: Direction, fetch: Fetch, progress: map<string, Json>)
      requires !fetch.Broken? && Carries(t, owner_id, Begun(direction, page_id) + progress)
      requires var status := map[Key(direction, "last_page_http_status") := Int(if fetch.HttpStatus? then fetch.code else 200)];
               progress == if EndsHere(fetch) then status[Key(direction, "pages_complete") := Bool(true)] else status
      ensures PageRecorded(t, page_id, owner_id, direction, fetch)
    {
      hide Key, Prop, EndsHere;
      KeysDiffer(direction);
    }

    method Progress(direction: Direction, fetch: Fetch, complete: bool) returns (props: map<string, Json>)
      ensures DEPTH !in props && LAST_FETCH !in props
      ensures var status := map[Key(direction, "last_page_http_status") := Int(if fetch.HttpStatus? then fetch.code else 200)];
              props == if complete then status[Key(direction, "pages_complete") := Bool(true)] else status
    {
      props := map[Key(direction, "last_page_http_status") := Int(if fetch.HttpStatus? then fetch.code else 200)];
      if complete {
        props := props[Key(direction, "pages_complete") := Bool(true)];
      }
    }

    /** The members, then the next page; `next` counts only on a page with items. */
    method WalkPage(ghost c: nat, fields: seq<(string, Json)>, owner_id: string, direction: Direction, depth: int,
                    ghost owner: Option<Job>)
      returns (ok: bool, complete: bool)
      requires dispatcher.world.Valid() && owner_id in dispatcher.world.at.graph.nodes
      requires dispatcher.world.Stands(c, Working(owner, PageWalk(fields, owner_id, direction, depth)))
      modifies dispatcher.world, dispatcher.world.graph
      ensures ok ==> dispatcher.world.Went(c, Working(owner, []))
      ensures !ok ==> dispatcher.world.Went(c, Working(owner, [Raise]))
      ensures dispatcher.world.PopsNothing(c)
      ensures ok ==> (complete <==> !Truthy(ItemsOf(fields)) || Get(fields, "next").None?)
    {
      hide World.Valid, PoppedBy, Walk, MemberIds, ItemsOf;
      var items := ItemsOf(fields);
      if !Truthy(items) {
        return true, true;
      }
      var next_id := LinkOf(fields, "next");
      ok := HandleItems(dispatcher, c, items, owner_id, direction, depth, owner, PageTodo(next_id, owner_id, direction, depth));
      complete := false;
      if !ok {
        return;
      }
      if Get(fields, "next").Some? {
        dispatcher.world.Await(c);
        QueuePage(dispatcher, c, next_id, owner_id, direction, depth, owner);
      } else {
        complete := true;
      }
    }
  }
}
