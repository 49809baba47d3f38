/**
 Ingesting the members of a collection or page (pub_crawler/handle_items.py).
 */
module Ingestion {
  import opened Options
  import opened JsonValues
  import opened Jobs
  import opened GraphTables
  import opened CachedGraph
  import opened Web
  import opened Protocol
  import opened GraphView
  import opened Clocks
  import opened Dispatching

  lemma {:induction false} ItemIdsAppend(items: seq<Json>, item: Json)
    ensures ItemIds(items + [item]) == ItemIds(items) + (match ItemId(item) case Some(id) => [id] case None => [])
  {
    if items == [] {
      assert items + [item] == [item];
    } else {
      ItemIdsAppend(items[1..], item);
      assert (items + [item])[1..] == items[1..] + [item];
    }
  }

  lemma {:induction false} InElements(ids: seq<string>, id: string)
    ensures id in Elements(ids) <==> id in ids
  {
  }

  /** The labels of `ids` that a read of a property left out: `ids - keys`. */
  method Missing(ids: seq<string>, found: map<string, Json>) returns (order: seq<string>)
    ensures NoRepeats(order)
    ensures forall id :: id in order <==> id in ids && id !in found
  {
    order := [];
    for i := 0 to |ids|
      invariant NoRepeats(order)
      invariant forall id :: id in order <==> id in ids[..i] && id !in found
    {
      assert ids[..i + 1] == ids[..i] + [ids[i]];
      if ids[i] !in found && ids[i] !in order {
        order := order + [ids[i]];
      }
    }
    assert ids[..|ids|] == ids;
  }

  /** `ensure_nodes`, which raises when some label does not fit its column. */
  method EnsureAll(world: World, ghost c: nat, ids: seq<string>, ghost owner: Option<Job>, ghost rest: seq<Action>)
    returns (ok: bool)
    requires world.Valid() && world.Stands(c, Working(owner, if AllFit(ids) then [Ensure(ids)] + rest else [Raise]))
    modifies world, world.graph
    ensures ok <==> AllFit(ids)
    ensures ok ==> world.Went(c, Working(owner, rest)) && Elements(ids) <= world.at.graph.nodes
    ensures !ok ==> world.Went(c, Working(owner, [Raise]))
    ensures world.PopsNothing(c)
  {
    hide Leads, Clocked, PoppedBy, Agrees, NodesOk, LinksOk, EdgesShown, DepthsShown, FetchesShown;
    EnsureRaises(world.graph.tables, ids);
    var answer := world.graph.EnsureNodes(ids);
    ok := answer.Done?;
    if ok {
      ShowsEnsure(old(world.graph.tables), world.at.graph, ids);
      assert ([Ensure(ids)] + rest)[1..] == rest;
      world.TookAct(c, []);
    }
  }

  /** The edge that one member of a collection stands for, from follower to followed. */
  function EdgeOf(id: string, owner_id: string, direction: Direction): (string, string) {
    match direction
    case Followers => (id, owner_id)
    case Following => (owner_id, id)
  }

  function FlagOf(direction: Direction): string {
    match direction
    case Followers => "from_followers"
    case Following => "from_following"
  }

  /** All these edges carry the flag of the collection they were found in. */
  ghost predicate Flagged(t: Tables, ids: seq<string>, owner_id: string, direction: Direction) {
    forall id :: id in ids ==>
      var e := EdgeOf(id, owner_id, direction);
      IsEdge(t, IdOf(t, e.0), IdOf(t, e.1)) && EdgeProp(t, e.0, e.1, FlagOf(direction)) == Some(Bool(true))
  }

  /** The edges, then their `from_followers` or `from_following` flag. */
  method LinkAll(world: World, ghost c: nat, ids: seq<string>, owner_id: string, direction: Direction,
                 ghost owner: Option<Job>, ghost rest: seq<Action>)
    requires world.Valid() && world.Stands(c, Working(owner, [Link(ids, owner_id, direction)] + rest))
    requires Elements(ids) <= world.at.graph.nodes && owner_id in world.at.graph.nodes
    modifies world, world.graph
    ensures world.Went(c, Working(owner, rest))
    ensures world.PopsNothing(c) && Flagged(world.graph.tables, ids, owner_id, direction)
  {
    hide World.Valid, PoppedBy, Follows, Flagged;
    EnsureEdges(world, c, ids, owner_id, direction, owner, rest);
    world.Await(c);
    FlagEdges(world, c, ids, owner_id, direction, Working(owner, rest));
  }

  /** Edges that were there keep their date, and new ones have one taken meanwhile. */
  ghost predicate Dated(before: map<(nat, nat), int>, after: map<(nat, nat), int>, from: int, until: int) {
    && (forall e :: e in before ==> e in after && after[e] == before[e])
    && (forall e :: e in after && e !in before ==> from <= after[e] <= until)
  }

  method EnsureEdges(world: World, ghost c: nat, ids: seq<string>, owner_id: string, direction: Direction,
                     ghost owner: Option<Job>, ghost rest: seq<Action>)
    requires world.Valid() && world.Stands(c, Working(owner, [Link(ids, owner_id, direction)] + rest))
    requires Elements(ids) <= world.at.graph.nodes && owner_id in world.at.graph.nodes
    modifies world, world.graph
    ensures world.Went(c, Working(owner, rest)) && Follows(ids, owner_id, direction) <= world.at.graph.follows
    ensures world.PopsNothing(c)
    ensures Dated(old(world.graph.tables).edges, world.graph.tables.edges, old(world.clock), world.clock)
  {
    hide Leads, Clocked, PoppedBy, Agrees, NodesOk, LinksOk, EdgesShown, DepthsShown, FetchesShown, Pairs;
    var now := world.Now();
    ShowsLink(world.graph.tables, world.at.graph, ids, owner_id, direction, now);
    assert ([Link(ids, owner_id, direction)] + rest)[1..] == rest;
    if direction == Followers {
      var answer := world.graph.EnsureToEdges(ids, owner_id, now);
    } else {
      var answer := world.graph.EnsureFromEdges(owner_id, ids, now);
    }
    world.TookAct(c, []);
  }

  method FlagEdges(world: World, ghost c: nat, ids: seq<string>, owner_id: string, direction: Direction, ghost pc: Pc)
    requires world.Valid() && world.Stands(c, pc) && Follows(ids, owner_id, direction) <= world.at.graph.follows
    modifies world.graph
    ensures world.Went(c, pc) && world.at == old(world.at) && Flagged(world.graph.tables, ids, owner_id, direction)
  {
    hide Leads, Clocked, PoppedBy, Agrees, NodesOk, LinksOk, EdgesShown, DepthsShown, FetchesShown, Pairs, Flagged;
    LinkedPairsAreEdges(world.graph.tables, world.at.graph, ids, owner_id, direction);
    var name := "from_" + DirectionName(direction);
    ShowsEdgeFlag(world.graph.tables, world.at.graph, LinkPairs(world.graph.tables, ids, owner_id, direction), name, Bool(true));
    LinksFlagged(world.graph.tables, world.at.graph, ids, owner_id, direction, name);
    if direction == Followers {
      var answer := world.graph.SetToEdgesProperty(ids, owner_id, name, Bool(true));
    } else {
      var answer := world.graph.SetFromEdgesProperty(owner_id, ids, name, Bool(true));
    }
  }

  lemma {:induction false} LinksFlagged(t: Tables, g: Graph, ids: seq<string>, owner_id: string, direction: Direction, name: string)
    requires Represents(t, g) && Follows(ids, owner_id, direction) <= g.follows && name == "from_" + DirectionName(direction)
    ensures var r := UpsertEdgeProps(t, LinkPairs(t, ids, owner_id, direction), name, Bool(true));
            r.Ok? ==> Flagged(r.value, ids, owner_id, direction)
  {
    hide LinkPairs, UpsertEdgeProps, EdgeProp, DepthsShown, FetchesShown;
    assert name == FlagOf(direction);
    var pairs := LinkPairs(t, ids, owner_id, direction);
    if UpsertEdgeProps(t, pairs, name, Bool(true)).Ok? {
      forall id | id in ids
        ensures var e := EdgeOf(id, owner_id, direction);
                var t' := UpsertEdgeProps(t, pairs, name, Bool(true)).value;
                IsEdge(t', IdOf(t', e.0), IdOf(t', e.1)) && EdgeProp(t', e.0, e.1, FlagOf(direction)) == Some(Bool(true))
      {
        var e := EdgeOf(id, owner_id, direction);
        assert (if direction == Followers then (id, owner_id) else (owner_id, id)) in Follows(ids, owner_id, direction);
        assert (e.0, e.1) in g.follows;
        InLinkPairs(t, ids, owner_id, direction, e.0, e.1);
        EdgePropAfterUpsert(t, pairs, name, Bool(true), e.0, e.1, name);
        SameEdges(t, pairs, name, Bool(true));
      }
    }
  }

  lemma {:induction false} SameEdges(t: Tables, pairs: set<(nat, nat)>, name: string, value: Json)
    requires UpsertEdgeProps(t, pairs, name, value).Ok?
    ensures UpsertEdgeProps(t, pairs, name, value).value.ids == t.ids && UpsertEdgeProps(t, pairs, name, value).value.edges == t.edges
  {
  }

  /** Labels without a depth get `depth`; the read and the write are two calls. */
  method StampDepths(world: World, ghost c: nat, ids: seq<string>, depth: int, ghost owner: Option<Job>, ghost rest: seq<Action>)
    requires world.Valid() && world.Stands(c, Working(owner, [StampDepth(ids, depth)] + rest))
    requires Elements(ids) <= world.at.graph.nodes
    modifies world, world.graph
    ensures world.Went(c, Working(owner, rest))
    ensures world.PopsNothing(c)
  {
    hide World.Valid, PoppedBy;
    var no_depths := ReadDepths(world, c, ids, depth, owner, rest);
    world.Await(c);
    WriteDepths(world, c, no_depths, depth, owner, rest);
  }

  method ReadDepths(world: World, ghost c: nat, ids: seq<string>, depth: int, ghost owner: Option<Job>, ghost rest: seq<Action>)
    returns (order: seq<string>)
    requires world.Valid() && world.Stands(c, Working(owner, [StampDepth(ids, depth)] + rest))
    modifies world
    ensures world.Went(c, Working(owner, [WriteDepth(order, depth)] + rest)) && Elements(order) <= Elements(ids)
    ensures world.PopsNothing(c)
  {
    hide Leads, Clocked, PoppedBy, Agrees, WellFormed, EdgesShown, DepthsShown, FetchesShown;
    var answer := world.graph.GetNodesProperty(ids, DEPTH);
    order := Missing(ids, answer.vs);
    forall id ensures id in Elements(order) <==> id in Elements(ids) && id !in world.at.graph.depth {
      ReadsMissing(world.graph.tables, world.at.graph, ids, id);
    }
    assert ([StampDepth(ids, depth)] + rest)[1..] == rest;
    assert Elements(order) == Elements(ids) - world.at.graph.depth.Keys;
    world.TookAct(c, order);
  }

  method WriteDepths(world: World, ghost c: nat, ids: seq<string>, depth: int, ghost owner: Option<Job>, ghost rest: seq<Action>)
    requires world.Valid() && world.Stands(c, Working(owner, [WriteDepth(ids, depth)] + rest))
    requires Elements(ids) <= world.at.graph.nodes
    modifies world, world.graph
    ensures world.Went(c, Working(owner, rest))
    ensures world.PopsNothing(c)
  {
    hide Leads, Clocked, PoppedBy, Agrees, NodesOk, LinksOk, EdgesShown, DepthsShown, FetchesShown;
    ShowsWriteDepth(world.graph.tables, world.at.graph, ids, depth);
    assert ([WriteDepth(ids, depth)] + rest)[1..] == rest;
    var answer := world.graph.SetNodesProperty(ids, DEPTH, Int(depth));
    world.TookAct(c, []);
  }

  /** Actor jobs for the labels not fetched yet. */
  method QueueUnfetchedActors(dispatcher: Dispatcher, ghost c: nat, ids: seq<string>, depth: int,
                              ghost owner: Option<Job>, ghost rest: seq<Action>)
    requires dispatcher.world.Valid() && dispatcher.world.Stands(c, Working(owner, [QueueUnfetched(ids, depth)] + rest))
    modifies dispatcher.world, dispatcher.world.graph
    ensures dispatcher.world.Went(c, Working(owner, rest))
    ensures dispatcher.world.PopsNothing(c)
  {
    hide World.Valid, PoppedBy, EnqueueActors;
    var not_fetched := ReadUnfetched(dispatcher.world, c, ids, depth, owner, rest);
    EnqueueEach(dispatcher, c, not_fetched, depth, owner, rest);
  }

  method ReadUnfetched(world: World, ghost c: nat, ids: seq<string>, depth: int, ghost owner: Option<Job>, ghost rest: seq<Action>)
    returns (order: seq<string>)
    requires world.Valid() && world.Stands(c, Working(owner, [QueueUnfetched(ids, depth)] + rest))
    modifies world
    ensures world.Went(c, Working(owner, EnqueueActors(order, depth) + rest))
    ensures world.PopsNothing(c)
  {
    hide Leads, Clocked, PoppedBy, Agrees, WellFormed, EdgesShown, DepthsShown, FetchesShown;
    var answer := world.graph.GetNodesProperty(ids, LAST_FETCH);
    order := Missing(ids, answer.vs);
    forall id ensures id in Elements(order) <==> id in Elements(ids) && id !in world.at.graph.fetched {
      ReadsMissing(world.graph.tables, world.at.graph, ids, id);
    }
    assert ([QueueUnfetched(ids, depth)] + rest)[1..] == rest;
    assert Elements(order) == Elements(ids) - world.at.graph.fetched;
    world.TookAct(c, order);
  }

  lemma {:induction false} EnqueueActorsFrom(ids: seq<string>, i: nat, depth: int, rest: seq<Action>)
    ensures i < |ids| ==> EnqueueActors(ids[i..], depth) + rest ==
                          [Enqueue(Actor(ids[i], depth))] + (EnqueueActors(ids[i + 1..], depth) + rest)
    ensures i == |ids| ==> EnqueueActors(ids[i..], depth) + rest == rest
  {
  }

  method EnqueueEach(dispatcher: Dispatcher, ghost c: nat, ids: seq<string>, depth: int,
                     ghost owner: Option<Job>, ghost rest: seq<Action>)
    requires dispatcher.world.Valid() && dispatcher.world.Stands(c, Working(owner, EnqueueActors(ids, depth) + rest))
    modifies dispatcher.world, dispatcher.world.graph
    ensures dispatcher.world.Went(c, Working(owner, rest))
    ensures dispatcher.world.PopsNothing(c)
  {
    hide World.Valid, PoppedBy, EnqueueActors;
    ghost var todo := EnqueueActors(ids, depth) + rest;
    assert ids[0..] == ids;
    for i := 0 to |ids|
      invariant dispatcher.world.Went(c, Working(owner, todo))
      invariant todo == EnqueueActors(ids[i..], depth) + rest
      invariant dispatcher.world.PopsNothing(c)
    {
      EnqueueActorsFrom(ids, i, depth, rest);
      todo := EnqueueActors(ids[i + 1..], depth) + rest;
      var added := dispatcher.EnqueueIfUnseen(c, Actor(ids[i], depth), owner, todo);
    }
    EnqueueActorsFrom(ids, |ids|, depth, rest);
  }

  /** The labels of the items; `Raised` when the value cannot be iterated. */
  method CollectIds(items: Json) returns (r: Result<seq<string>>)
    ensures r == match Iterate(items) case Ok(list) => Ok(ItemIds(list)) case Raised => Raised
  {
    var list := Iterate(items);
    if list.Raised? {
      return Raised;
    }
    var ids := [];
    for i := 0 to |list.value|
      invariant ids == ItemIds(list.value[..i])
    {
      var item := list.value[i];
      assert list.value[..i + 1] == list.value[..i] + [item];
      ItemIdsAppend(list.value[..i], item);
      if item.Str? && item.s != "" {
        ids := ids + [item.s];
      } else if item.Obj? && GetStr(item.fields, "id").Some? && GetStr(item.fields, "id").value != "" {
        ids := ids + [GetStr(item.fields, "id").value];
      }
    }
    assert list.value[..|list.value|] == list.value;
    r := Ok(ids);
  }

  /** `handle_items`. It raises before it writes anything when the items cannot be
      iterated or a label does not fit; the plan says so too. */
  method HandleItems(dispatcher: Dispatcher, ghost c: nat, items: Json, owner_id: string, direction: Direction, depth: int,
                     ghost owner: Option<Job>, ghost rest: seq<Action>)
    returns (ok: bool)
    requires dispatcher.world.Valid() && owner_id in dispatcher.world.at.graph.nodes
    requires dispatcher.world.Stands(c, Working(owner,
               match MemberIds(items) case Raised => [Raise] case Ok(ids) => Walk(ids, owner_id, direction, depth) + rest))
    modifies dispatcher.world, dispatcher.world.graph
    ensures ok <==> MemberIds(items).Ok?
    ensures ok ==> dispatcher.world.Went(c, Working(owner, rest))
    ensures !ok ==> dispatcher.world.Went(c, Working(owner, [Raise]))
    ensures dispatcher.world.PopsNothing(c)
  {
    hide World.Valid, PoppedBy, AllFit, ItemIds, Iterate;
    var r := CollectIds(items);
    if r.Raised? {
      return false;
    }
    var ids := r.value;
    ghost var stamp := [StampDepth(ids, depth + 1), QueueUnfetched(ids, depth + 1)] + rest;
    assert Walk(ids, owner_id, direction, depth) + rest == [Ensure(ids)] + ([Link(ids, owner_id, direction)] + stamp);
    ok := AddMembers(dispatcher.world, c, ids, owner_id, direction, owner, stamp);
    if ok {
      dispatcher.world.Await(c);
      QueueMembers(dispatcher, c, ids, depth + 1, owner, rest);
    }
  }

  /** The nodes and edges. */
  method AddMembers(world: World, ghost c: nat, ids: seq<string>, owner_id: string, direction: Direction,
                    ghost owner: Option<Job>, ghost rest: seq<Action>)
    returns (ok: bool)
    requires world.Valid() && owner_id in world.at.graph.nodes
    requires world.Stands(c, Working(owner,
               if AllFit(ids) then [Ensure(ids)] + ([Link(ids, owner_id, direction)] + rest) else [Raise]))
    modifies world, world.graph
    ensures ok <==> AllFit(ids)
    ensures ok ==> world.Went(c, Working(owner, rest)) && Elements(ids) <= world.at.graph.nodes
    ensures !ok ==> world.Went(c, Working(owner, [Raise]))
    ensures world.PopsNothing(c)
  {
    hide World.Valid, PoppedBy, AllFit;
    ok := EnsureAll(world, c, ids, owner, [Link(ids, owner_id, direction)] + rest);
    if ok {
      world.Await(c);
      LinkAll(world, c, ids, owner_id, direction, owner, rest);
    }
  }

  /** The depths and the actor jobs. */
  method QueueMembers(dispatcher: Dispatcher, ghost c: nat, ids: seq<string>, depth: int, ghost owner: Option<Job>, ghost rest: seq<Action>)
    requires dispatcher.world.Valid() && Elements(ids) <= dispatcher.world.at.graph.nodes
    requires dispatcher.world.Stands(c, Working(owner, [StampDepth(ids, depth), QueueUnfetched(ids, depth)] + rest))
    modifies dispatcher.world, dispatcher.world.graph
    ensures dispatcher.world.Went(c, Working(owner, rest))
    ensures dispatcher.world.PopsNothing(c)
  {
    hide World.Valid, PoppedBy;
    ghost var queue := [QueueUnfetched(ids, depth)] + rest;
    assert [StampDepth(ids, depth), QueueUnfetched(ids, depth)] + rest == [StampDepth(ids, depth)] + queue;
    StampDepths(dispatcher.world, c, ids, depth, owner, queue);
    dispatcher.world.Await(c);
    QueueUnfetchedActors(dispatcher, c, ids, depth, owner, rest);
  }
}
