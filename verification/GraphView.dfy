/**
 What the crawl sees of the graph tables: which labels exist, their `depth`, which
 carry a `last_fetch_date`, and which follow which. Each call a handler makes has
 the effect on this view that the protocol gives it.
 */
module GraphView {
  import opened Options
  import opened JsonValues
  import opened Jobs
  import opened GraphTables
  import opened Web
  import opened Protocol

  const DEPTH := "depth"
  const LAST_FETCH := "last_fetch_date"

  function Prop(t: Tables, node: string, name: string): Option<Json> {
    NodeRow(t, IdOf(t, node), name)
  }

  function EdgeProp(t: Tables, from: string, to: string, name: string): Option<Json> {
    EdgeRow(t, IdOf(t, from), IdOf(t, to), name)
  }

  ghost predicate EdgesShown(t: Tables, g: Graph) {
    forall a, b :: (a, b) in g.follows <==> IsEdge(t, IdOf(t, a), IdOf(t, b))
  }

  ghost predicate DepthsShown(t: Tables, g: Graph) {
    forall l :: Prop(t, l, DEPTH) == if l in g.depth then Some(Int(g.depth[l])) else None
  }

  ghost predicate FetchesShown(t: Tables, g: Graph) {
    forall l :: (l in g.fetched <==> Prop(t, l, LAST_FETCH).Some?) &&
                (Prop(t, l, LAST_FETCH).Some? ==> Truthy(Prop(t, l, LAST_FETCH).value))
  }

  ghost predicate Represents(t: Tables, g: Graph) {
    WellFormed(t) && g.nodes == t.ids.Keys && EdgesShown(t, g) && DepthsShown(t, g) && FetchesShown(t, g)
  }

  lemma {:induction false} EmptyRepresents()
    ensures Represents(EMPTY, EMPTY_GRAPH)
  {
  }

  /** The tables of `t'` differ from those of `t` only in node properties. */
  predicate OnlyNodeProps(t: Tables, t': Tables) {
    t'.ids == t.ids && t'.labels == t.labels && t'.edges == t.edges
  }

  lemma {:induction false} PropAfterUpsert(t: Tables, ids: set<nat>, props: map<string, Json>, l: string, name: string)
    requires WellFormed(t)
    ensures Prop(UpsertNodeProps(t, ids, props), l, name) ==
            if l in t.ids && t.ids[l] in ids && name in props then Some(props[name]) else Prop(t, l, name)
  {
  }

  /** One edge property set on edges of known nodes. */
  lemma {:induction false} EdgePropAfterUpsert(t: Tables, pairs: set<(nat, nat)>, name: string, value: Json, a: string, b: string, n: string)
    requires UpsertEdgeProps(t, pairs, name, value).Ok?
    ensures EdgeProp(UpsertEdgeProps(t, pairs, name, value).value, a, b, n) ==
            if a in t.ids && b in t.ids && (t.ids[a], t.ids[b]) in pairs && n == name then Some(value) else EdgeProp(t, a, b, n)
  {
  }

  lemma {:induction false} InIdsOf(t: Tables, labels: seq<string>, l: string)
    requires WellFormed(t) && l in t.ids
    ensures t.ids[l] in IdsOf(t, labels) <==> l in labels
  {
  }

  lemma {:induction false} ShowsEnsure(t: Tables, g: Graph, labels: seq<string>)
    requires Represents(t, g) && InsertNodes(t, labels).Ok?
    ensures Represents(InsertNodes(t, labels).value, Affect(g, Ensure(labels)))
  {
    InsertNodesKeeps(t, labels);
    var t' := InsertNodes(t, labels).value;
    forall l, name ensures Prop(t', l, name) == Prop(t, l, name) {
    }
    forall a, b ensures IsEdge(t', IdOf(t', a), IdOf(t', b)) == IsEdge(t, IdOf(t, a), IdOf(t, b)) {
    }
  }

  /** `ensure_nodes` raises exactly when a label does not fit its column. */
  lemma {:induction false} EnsureRaises(t: Tables, labels: seq<string>)
    requires WellFormed(t)
    ensures InsertNodes(t, labels).Raised? <==> !AllFit(labels)
  {
    InsertNodesKeeps(t, labels);
  }

  function LinkPairs(t: Tables, ids: seq<string>, owner: string, direction: Direction): set<(nat, nat)> {
    if direction == Followers then Pairs(IdsOf(t, ids), One(IdOf(t, owner))) else Pairs(One(IdOf(t, owner)), IdsOf(t, ids))
  }

  lemma {:induction false} InLinkPairs(t: Tables, ids: seq<string>, owner: string, direction: Direction, a: string, b: string)
    requires WellFormed(t) && a in t.ids && b in t.ids && owner in t.ids
    ensures (t.ids[a], t.ids[b]) in LinkPairs(t, ids, owner, direction) <==>
            (if direction == Followers then a in ids && b == owner else a == owner && b in ids)
  {
    InIdsOf(t, ids, a);
    InIdsOf(t, ids, b);
  }

  lemma {:induction false} LinkPairsKnown(t: Tables, ids: seq<string>, owner: string, direction: Direction)
    requires WellFormed(t)
    ensures forall e :: e in LinkPairs(t, ids, owner, direction) ==> e.0 in t.labels && e.1 in t.labels
  {
  }

  lemma {:induction false} ShowsLink(t: Tables, g: Graph, ids: seq<string>, owner: string, direction: Direction, now: int)
    requires Represents(t, g) && owner in g.nodes && Elements(ids) <= g.nodes
    ensures Represents(InsertEdges(t, LinkPairs(t, ids, owner, direction), now), Affect(g, Link(ids, owner, direction)))
  {
    LinkPairsKnown(t, ids, owner, direction);
    InsertEdgesKeeps(t, LinkPairs(t, ids, owner, direction), now);
    var t', g' := InsertEdges(t, LinkPairs(t, ids, owner, direction), now), Affect(g, Link(ids, owner, direction));
    assert forall id :: id in ids ==> id in Elements(ids);
    forall l, name ensures Prop(t', l, name) == Prop(t, l, name) {
    }
    forall a, b ensures (a, b) in g'.follows <==> IsEdge(t', IdOf(t', a), IdOf(t', b)) {
      if a in t.ids && b in t.ids {
        InLinkPairs(t, ids, owner, direction, a, b);
      }
    }
  }

  /** Flagging the edges just ensured does not violate the foreign key. */
  lemma {:induction false} LinkedPairsAreEdges(t: Tables, g: Graph, ids: seq<string>, owner: string, direction: Direction)
    requires Represents(t, g) && Follows(ids, owner, direction) <= g.follows
    ensures LinkPairs(t, ids, owner, direction) <= t.edges.Keys
  {
    forall e | e in LinkPairs(t, ids, owner, direction) ensures e in t.edges {
      LinkPairsKnown(t, ids, owner, direction);
      var a, b := t.labels[e.0], t.labels[e.1];
      InLinkPairs(t, ids, owner, direction, a, b);
      var id := if direction == Followers then a else b;
      assert (if direction == Followers then (id, owner) else (owner, id)) in Follows(ids, owner, direction);
      assert (a, b) in g.follows;
    }
  }

  lemma {:induction false} ShowsEdgeFlag(t: Tables, g: Graph, pairs: set<(nat, nat)>, name: string, value: Json)
    requires Represents(t, g) && UpsertEdgeProps(t, pairs, name, value).Ok?
    ensures Represents(UpsertEdgeProps(t, pairs, name, value).value, g)
  {
    UpsertEdgePropsKeeps(t, pairs, name, value);
    var t' := UpsertEdgeProps(t, pairs, name, value).value;
    forall l, n ensures Prop(t', l, n) == Prop(t, l, n) {
    }
  }

  /** Progress and profile properties are invisible to the crawl. */
  lemma {:induction false} ShowsOtherProps(t: Tables, g: Graph, ids: set<nat>, props: map<string, Json>)
    requires Represents(t, g) && ids <= t.labels.Keys && DEPTH !in props && LAST_FETCH !in props
    ensures Represents(UpsertNodeProps(t, ids, props), g)
  {
    UpsertNodePropsKeeps(t, ids, props);
    forall l, name ensures name !in props ==> Prop(UpsertNodeProps(t, ids, props), l, name) == Prop(t, l, name) {
      PropAfterUpsert(t, ids, props, l, name);
    }
  }

  /** A change of node properties shows in the view through two properties alone. */
  lemma {:induction false} ShowsProps(t: Tables, g: Graph, t': Tables, g': Graph)
    requires Represents(t, g) && WellFormed(t') && OnlyNodeProps(t, t') && g'.nodes == g.nodes && g'.follows == g.follows
    requires DepthsShown(t', g') && FetchesShown(t', g')
    ensures Represents(t', g')
  {
    forall a, b ensures IsEdge(t', IdOf(t', a), IdOf(t', b)) == IsEdge(t, IdOf(t, a), IdOf(t, b)) {
    }
  }

  lemma {:induction false} ShowsWriteDepth(t: Tables, g: Graph, ids: seq<string>, depth: int)
    requires Represents(t, g) && Elements(ids) <= g.nodes
    ensures Represents(UpsertNodeProps(t, IdsOf(t, ids), map[DEPTH := Int(depth)]), Affect(g, WriteDepth(ids, depth)))
  {
    var props := map[DEPTH := Int(depth)];
    var t' := UpsertNodeProps(t, IdsOf(t, ids), props);
    UpsertNodePropsKeeps(t, IdsOf(t, ids), props);
    forall l
      ensures Prop(t', l, DEPTH) == if l in ids then Some(Int(depth)) else Prop(t, l, DEPTH)
      ensures Prop(t', l, LAST_FETCH) == Prop(t, l, LAST_FETCH)
    {
      PropAfterUpsert(t, IdsOf(t, ids), props, l, DEPTH);
      PropAfterUpsert(t, IdsOf(t, ids), props, l, LAST_FETCH);
      assert l in ids ==> l in Elements(ids);
      if l in t.ids {
        InIdsOf(t, ids, l);
      }
    }
    WrittenDepthShown(t, g, t', ids, depth);
  }

  /** The same, for one label through `set_node_property`. */
  lemma {:induction false} ShowsWriteOne(t: Tables, g: Graph, node: string, depth: int)
    requires Represents(t, g) && node in g.nodes
    ensures SetNodeValue(t, IdOf(t, node), DEPTH, Int(depth)).Ok?
    ensures Represents(SetNodeValue(t, IdOf(t, node), DEPTH, Int(depth)).value, Affect(g, WriteDepth([node], depth)))
  {
    hide Prop, EdgesShown, DepthsShown, FetchesShown, LinksOk, UpsertNodeProps, Affect;
    assert Elements([node]) == {node};
    ShowsWriteDepth(t, g, [node], depth);
    assert IdsOf(t, [node]) == {t.ids[node]} by {
      InIdsOf(t, [node], node);
    }
  }

  lemma {:induction false} WrittenDepthShown(t: Tables, g: Graph, t': Tables, ids: seq<string>, depth: int)
    requires Represents(t, g) && WellFormed(t') && OnlyNodeProps(t, t')
    requires forall l :: Prop(t', l, DEPTH) == if l in ids then Some(Int(depth)) else Prop(t, l, DEPTH)
    requires forall l :: Prop(t', l, LAST_FETCH) == Prop(t, l, LAST_FETCH)
    ensures Represents(t', Affect(g, WriteDepth(ids, depth)))
  {
    ShowsProps(t, g, t', Affect(g, WriteDepth(ids, depth)));
  }

  lemma {:induction false} ShowsSaveActor(t: Tables, g: Graph, actorId: string, depth: int, fetched: bool, props: map<string, Json>)
    requires Represents(t, g) && actorId in g.nodes
    requires DEPTH in props && props[DEPTH] == Int(depth)
    requires if fetched then LAST_FETCH in props && Truthy(props[LAST_FETCH]) else LAST_FETCH !in props
    ensures Represents(UpsertNodeProps(t, One(IdOf(t, actorId)), props), Affect(g, SaveActor(actorId, depth, fetched)))
  {
    var ids := One(IdOf(t, actorId));
    var t' := UpsertNodeProps(t, ids, props);
    UpsertNodePropsKeeps(t, ids, props);
    forall l
      ensures Prop(t', l, DEPTH) == if l == actorId then Some(Int(depth)) else Prop(t, l, DEPTH)
      ensures Prop(t', l, LAST_FETCH) == if l == actorId && fetched then Some(props[LAST_FETCH]) else Prop(t, l, LAST_FETCH)
    {
      PropAfterUpsert(t, ids, props, l, DEPTH);
      PropAfterUpsert(t, ids, props, l, LAST_FETCH);
    }
    SavedActorShown(t, g, t', actorId, depth, fetched);
  }

  lemma {:induction false} SavedActorShown(t: Tables, g: Graph, t': Tables, actorId: string, depth: int, fetched: bool)
    requires Represents(t, g) && WellFormed(t') && OnlyNodeProps(t, t')
    requires forall l :: Prop(t', l, DEPTH) == if l == actorId then Some(Int(depth)) else Prop(t, l, DEPTH)
    requires forall l :: l == actorId && fetched ==> Prop(t', l, LAST_FETCH).Some? && Truthy(Prop(t', l, LAST_FETCH).value)
    requires forall l :: !(l == actorId && fetched) ==> Prop(t', l, LAST_FETCH) == Prop(t, l, LAST_FETCH)
    ensures Represents(t', Affect(g, SaveActor(actorId, depth, fetched)))
  {
    ShowsProps(t, g, t', Affect(g, SaveActor(actorId, depth, fetched)));
  }

  /** What `get_nodes_property` leaves out of `ids`. */
  lemma {:induction false} ReadsMissing(t: Tables, g: Graph, ids: seq<string>, l: string)
    requires Represents(t, g)
    ensures l in ids ==> (l in NodeValues(t, ids, DEPTH) <==> l in g.depth)
    ensures l in ids ==> (l in NodeValues(t, ids, LAST_FETCH) <==> l in g.fetched)
  {
    assert Prop(t, l, DEPTH) == if l in g.depth then Some(Int(g.depth[l])) else None;
    assert l in g.fetched <==> Prop(t, l, LAST_FETCH).Some?;
  }

  // ---- the view only grows ----

  ghost predicate Grows(g: Graph, g': Graph) {
    g.nodes <= g'.nodes && g.follows <= g'.follows && g.fetched <= g'.fetched && g.depth.Keys <= g'.depth.Keys
  }

  lemma {:induction false} StepGrows(env: Env, s: State, s': State, step: Step)
    requires Next(env, s, s', step)
    ensures Grows(s.graph, s'.graph)
  {
    hide Plan, Answers, Remaining;
  }

  lemma {:induction false} RunGrows(env: Env, run: seq<State>, steps: seq<Step>, i: nat, k: nat)
    requires IsRun(env, run, steps) && i <= k < |run|
    ensures Grows(run[i].graph, run[k].graph)
    decreases k
  {
    if i < k {
      RunGrows(env, run, steps, i, k - 1);
      StepGrows(env, run[k - 1], run[k], steps[k - 1]);
    }
  }
}
