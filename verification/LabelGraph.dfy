/**
 The graph store as its users know it: labels, edges between labels, and properties,
 with no ids, tables or caches. The tables of pub_crawler/database.py behave like it,
 operation by operation, and so does the cached store.
 */
module LabelGraphs {
  import opened Options
  import opened JsonValues
  import opened GraphTables

  type Edge = (string, string)

  /** `edges` says when each edge was first created. */
  datatype LabelGraph = LabelGraph(
    nodes: set<string>,
    edges: map<Edge, int>,
    nodeProps: map<(string, string), Json>,
    edgeProps: map<(Edge, string), Json>)

  function Find<K, V>(m: map<K, V>, k: K): Option<V> {
    if k in m then Some(m[k]) else None
  }

  function EdgeAt(t: Tables, a: string, b: string): Option<int> {
    if a in t.ids && b in t.ids then Find(t.edges, (t.ids[a], t.ids[b])) else None
  }

  function NodePropAt(t: Tables, l: string, n: string): Option<Json> {
    if l in t.ids then Find(t.nodeProps, (t.ids[l], n)) else None
  }

  function EdgePropAt(t: Tables, a: string, b: string, n: string): Option<Json> {
    if a in t.ids && b in t.ids then Find(t.edgeProps, ((t.ids[a], t.ids[b]), n)) else None
  }

  /** The tables hold this graph. */
  ghost predicate Shows(t: Tables, g: LabelGraph) {
    && g.nodes == t.ids.Keys
    && (forall a, b :: EdgeAt(t, a, b) == Find(g.edges, (a, b)))
    && (forall l, n :: NodePropAt(t, l, n) == Find(g.nodeProps, (l, n)))
    && (forall a, b, n :: EdgePropAt(t, a, b, n) == Find(g.edgeProps, ((a, b), n)))
  }

  // ---- the operations on labels ----

  /** The edges an operation names: from each of some labels to each of others. */
  function Named(froms: seq<string>, tos: seq<string>): set<Edge> {
    set a, b | a in froms && b in tos :: (a, b)
  }

  /** Those of them whose ends both exist. */
  function Known(g: LabelGraph, pairs: set<Edge>): set<Edge> {
    set e | e in pairs && e.0 in g.nodes && e.1 in g.nodes
  }

  /** New edges date from `now`; an edge that was there keeps its date. */
  function Joined(g: LabelGraph, pairs: set<Edge>, now: int): LabelGraph {
    g.(edges := (map e | e in pairs :: now) + g.edges)
  }

  function WithNodeProps(g: LabelGraph, labels: seq<string>, props: map<string, Json>): LabelGraph {
    g.(nodeProps := g.nodeProps + map l, n | l in labels && l in g.nodes && n in props :: (l, n) := props[n])
  }

  function WithEdgeProps(g: LabelGraph, pairs: set<Edge>, props: map<string, Json>): LabelGraph {
    g.(edgeProps := g.edgeProps + map e, n | e in pairs && n in props :: (e, n) := props[n])
  }

  function WithoutNode(g: LabelGraph, node: string): LabelGraph {
    LabelGraph(
      g.nodes - {node},
      map e | e in g.edges && e.0 != node && e.1 != node :: g.edges[e],
      map k | k in g.nodeProps && k.0 != node :: g.nodeProps[k],
      map k | k in g.edgeProps && k.0.0 != node && k.0.1 != node :: g.edgeProps[k])
  }

  function WithoutEdge(g: LabelGraph, e: Edge): LabelGraph {
    g.(edges := g.edges - {e}, edgeProps := map k | k in g.edgeProps && k.0 != e :: g.edgeProps[k])
  }

  /** The edges an operation needs are there; setting no property needs none. */
  predicate Allows(g: LabelGraph, op: Op) {
    match op
    case EnsureNode(l) => |l| <= MAX_LABEL
    case EnsureNodes(ls) => forall l :: l in ls ==> |l| <= MAX_LABEL
    case EnsureEdge(a, b) => a in g.nodes && b in g.nodes
    case SetNodeProperty(l, _, _) => l in g.nodes
    case SetEdgeProperty(a, b, _, _) => (a, b) in g.edges
    case SetEdgeProperties(a, b, props) => props == map[] || Known(g, {(a, b)}) <= g.edges.Keys
    case SetFromEdgesProperty(a, bs, _, _) => Known(g, Named([a], bs)) <= g.edges.Keys
    case SetToEdgesProperty(as_, b, _, _) => Known(g, Named(as_, [b])) <= g.edges.Keys
    case _ => true
  }

  function Effect(g: LabelGraph, op: Op, now: int): LabelGraph {
    match op
    case EnsureNode(l) => g.(nodes := g.nodes + {l})
    case EnsureNodes(ls) => g.(nodes := g.nodes + set l | l in ls)
    case EnsureEdge(a, b) => Joined(g, {(a, b)}, now)
    case EnsureFromEdges(a, bs) => Joined(g, Known(g, Named([a], bs)), now)
    case EnsureToEdges(as_, b) => Joined(g, Known(g, Named(as_, [b])), now)
    case DeleteNode(l) => WithoutNode(g, l)
    case DeleteEdge(a, b) => WithoutEdge(g, (a, b))
    case SetNodeProperty(l, n, v) => WithNodeProps(g, [l], map[n := v])
    case SetNodesProperty(ls, n, v) => WithNodeProps(g, ls, map[n := v])
    case SetNodeProperties(l, props) => WithNodeProps(g, [l], props)
    case SetEdgeProperty(a, b, n, v) => WithEdgeProps(g, {(a, b)}, map[n := v])
    case SetEdgeProperties(a, b, props) => WithEdgeProps(g, Known(g, {(a, b)}), props)
    case SetFromEdgesProperty(a, bs, n, v) => WithEdgeProps(g, Known(g, Named([a], bs)), map[n := v])
    case SetToEdgesProperty(as_, b, n, v) => WithEdgeProps(g, Known(g, Named(as_, [b])), map[n := v])
    case _ => g
  }

  /** What an operation leaves; one that is refused changes nothing. */
  function Next(g: LabelGraph, op: Op, now: int): LabelGraph {
    if Allows(g, op) then Effect(g, op, now) else g
  }

  /** `v` is the value of `key`; a stored null reads as `None`, like no value at all. */
  ghost predicate ReadAs<K>(props: map<K, Json>, key: K, v: Option<Json>) {
    v == if key in props && props[key] != Null then Some(props[key]) else None
  }

  /** `first` touches the node, and no edge that does is older. */
  ghost predicate Oldest(g: LabelGraph, node: string, first: Edge) {
    first in g.edges && (first.0 == node || first.1 == node) &&
    forall e :: e in g.edges && (e.0 == node || e.1 == node) ==> g.edges[first] <= g.edges[e]
  }

  /** The right answers. Among edges of the same age any neighbor will do. */
  ghost predicate Answered(g: LabelGraph, op: Op, a: Answer) {
    if !Allows(g, op) then a == Failed
    else
      match op
      case HasNode(l) => a == Truth(l in g.nodes)
      case HasEdge(x, y) => a == Truth((x, y) in g.edges)
      case GetNodeProperty(l, n) => a.Value? && ReadAs(g.nodeProps, (l, n), a.v)
      case GetEdgeProperty(x, y, n) => a.Value? && ReadAs(g.edgeProps, ((x, y), n), a.v)
      case GetNodesProperty(ls, n) => a.Values? &&
        (forall l :: l in a.vs <==> l in ls && (l, n) in g.nodeProps) && (forall l :: l in a.vs ==> a.vs[l] == g.nodeProps[(l, n)])
      case GetNodeProperties(l) => a.Values? &&
        (forall n :: n in a.vs <==> (l, n) in g.nodeProps) && (forall n :: n in a.vs ==> a.vs[n] == g.nodeProps[(l, n)])
      case GetEdgeProperties(x, y) => a.Values? &&
        (forall n :: n in a.vs <==> ((x, y), n) in g.edgeProps) && (forall n :: n in a.vs ==> a.vs[n] == g.edgeProps[((x, y), n)])
      case GetFromEdgesProperty(x, ys, n) => a.Values? &&
        (forall y :: y in a.vs <==> y in ys && ((x, y), n) in g.edgeProps) && (forall y :: y in a.vs ==> a.vs[y] == g.edgeProps[((x, y), n)])
      case GetToEdgesProperty(xs, y, n) => a.Values? &&
        (forall x :: x in a.vs <==> x in xs && ((x, y), n) in g.edgeProps) && (forall x :: x in a.vs ==> a.vs[x] == g.edgeProps[((x, y), n)])
      case FirstNeighbor(l) =>
        (a == Neighbor(None) && forall e :: e in g.edges ==> e.0 != l && e.1 != l) ||
        exists e :: Oldest(g, l, e) && a == Neighbor(Some(if e.0 == l then e.1 else e.0))
      case _ => a == Done
  }

  // ---- the tables behave like it ----

  lemma {:induction false} NodesShown(t: Tables, g: LabelGraph, labels: seq<string>)
    requires WellFormed(t) && Shows(t, g)
    ensures InsertNodes(t, labels).Ok? <==> forall l :: l in labels ==> |l| <= MAX_LABEL
    ensures InsertNodes(t, labels).Ok? ==> Shows(InsertNodes(t, labels).value, g.(nodes := g.nodes + set l | l in labels))
  {
    hide InsertNodes, Shows;
    InsertNodesKeeps(t, labels);
    if InsertNodes(t, labels).Ok? {
      GrownShown(t, g, InsertNodes(t, labels).value, labels);
    }
  }

  lemma {:induction false} GrownShown(t: Tables, g: LabelGraph, t': Tables, labels: seq<string>)
    requires WellFormed(t) && Shows(t, g) && Grown(t, t', labels)
    ensures Shows(t', g.(nodes := g.nodes + set l | l in labels))
  {
    forall a, b, n
      ensures EdgeAt(t', a, b) == EdgeAt(t, a, b) && NodePropAt(t', a, n) == NodePropAt(t, a, n)
      ensures EdgePropAt(t', a, b, n) == EdgePropAt(t, a, b, n)
    {
    }
  }

  /** The rows `pairs` are the edges `named` between known labels. */
  ghost predicate SamePairs(t: Tables, pairs: set<(nat, nat)>, named: set<Edge>) {
    && (forall e :: e in named ==> e.0 in t.ids && e.1 in t.ids)
    && forall a, b :: a in t.ids && b in t.ids ==> ((t.ids[a], t.ids[b]) in pairs <==> (a, b) in named)
  }

  lemma {:induction false} IdsOfKnown(t: Tables, labels: seq<string>)
    requires WellFormed(t)
    ensures forall l :: l in t.ids ==> (t.ids[l] in IdsOf(t, labels) <==> l in labels)
    ensures forall l, k :: l in t.ids ==> (t.ids[l] in One(IdOf(t, k)) <==> l == k)
  {
  }

  lemma {:induction false} PairsShown(t: Tables, g: LabelGraph, a: string, bs: seq<string>)
    requires WellFormed(t) && Shows(t, g)
    ensures SamePairs(t, Pairs(One(IdOf(t, a)), IdsOf(t, bs)), Known(g, Named([a], bs)))
    ensures SamePairs(t, Pairs(IdsOf(t, bs), One(IdOf(t, a))), Known(g, Named(bs, [a])))
    ensures forall e :: e in Pairs(One(IdOf(t, a)), IdsOf(t, bs)) + Pairs(IdsOf(t, bs), One(IdOf(t, a))) ==> e.0 in t.labels && e.1 in t.labels
  {
    hide LinksOk, EdgeAt, NodePropAt, EdgePropAt;
    IdsOfKnown(t, bs);
  }

  /** One edge between two labels: one row if both are known, none otherwise. */
  lemma {:induction false} PairShown(t: Tables, g: LabelGraph, a: string, b: string)
    requires WellFormed(t) && Shows(t, g)
    ensures SamePairs(t, Pairs(One(IdOf(t, a)), One(IdOf(t, b))), Known(g, {(a, b)}))
    ensures Pairs(One(IdOf(t, a)), One(IdOf(t, b))) == if a in t.ids && b in t.ids then {(t.ids[a], t.ids[b])} else {}
    ensures Known(g, {(a, b)}) == if a in t.ids && b in t.ids then {(a, b)} else {}
    ensures (a, b) in g.edges ==> a in t.ids && b in t.ids
    ensures a in t.ids && b in t.ids ==> ((t.ids[a], t.ids[b]) in t.edges <==> (a, b) in g.edges)
  {
    hide LinksOk, NodePropAt, EdgePropAt;
    IdsOfKnown(t, [b]);
    assert EdgeAt(t, a, b) == Find(g.edges, (a, b));
  }

  /** Rows all of whose ends are known are edges exactly when their names are. */
  lemma {:induction false} PairsAreEdges(t: Tables, g: LabelGraph, pairs: set<(nat, nat)>, named: set<Edge>)
    requires WellFormed(t) && Shows(t, g) && SamePairs(t, pairs, named)
    requires forall e :: e in pairs ==> e.0 in t.labels && e.1 in t.labels
    ensures pairs <= t.edges.Keys <==> named <= g.edges.Keys
  {
    if named <= g.edges.Keys {
      forall e | e in pairs ensures e in t.edges {
        var a, b := t.labels[e.0], t.labels[e.1];
        assert (a, b) in named && EdgeAt(t, a, b) == Find(g.edges, (a, b));
      }
    }
    if pairs <= t.edges.Keys {
      forall e | e in named ensures e in g.edges {
        assert (t.ids[e.0], t.ids[e.1]) in pairs;
        assert EdgeAt(t, e.0, e.1) == Find(g.edges, e);
      }
    }
  }

  lemma {:induction false} EdgesJoined(t: Tables, g: LabelGraph, pairs: set<(nat, nat)>, named: set<Edge>, now: int)
    requires Shows(t, g) && SamePairs(t, pairs, named)
    ensures Shows(InsertEdges(t, pairs, now), Joined(g, named, now))
  {
    var t', g' := InsertEdges(t, pairs, now), Joined(g, named, now);
    forall a, b ensures EdgeAt(t', a, b) == Find(g'.edges, (a, b)) {
      assert EdgeAt(t, a, b) == Find(g.edges, (a, b));
    }
    SameElsewhere(t, t');
  }

  lemma {:induction false} SameElsewhere(t: Tables, t': Tables)
    requires t'.ids == t.ids
    ensures t'.edges == t.edges ==> forall a, b :: EdgeAt(t', a, b) == EdgeAt(t, a, b)
    ensures t'.nodeProps == t.nodeProps ==> forall l, n :: NodePropAt(t', l, n) == NodePropAt(t, l, n)
    ensures t'.edgeProps == t.edgeProps ==> forall a, b, n :: EdgePropAt(t', a, b, n) == EdgePropAt(t, a, b, n)
  {
  }

  lemma {:induction false} NodePropSetAt(t: Tables, g: LabelGraph, ids: set<nat>, labels: seq<string>, props: map<string, Json>, l: string, n: string)
    requires g.nodes == t.ids.Keys && NodePropAt(t, l, n) == Find(g.nodeProps, (l, n))
    requires l in t.ids ==> (t.ids[l] in ids <==> l in labels)
    ensures NodePropAt(UpsertNodeProps(t, ids, props), l, n) == Find(WithNodeProps(g, labels, props).nodeProps, (l, n))
  {
  }

  lemma {:induction false} NodePropsSet(t: Tables, g: LabelGraph, ids: set<nat>, labels: seq<string>, props: map<string, Json>)
    requires Shows(t, g) && forall l :: l in t.ids ==> (t.ids[l] in ids <==> l in labels)
    ensures Shows(UpsertNodeProps(t, ids, props), WithNodeProps(g, labels, props))
  {
    hide EdgeAt, NodePropAt, EdgePropAt, Find;
    forall l, n ensures NodePropAt(UpsertNodeProps(t, ids, props), l, n) == Find(WithNodeProps(g, labels, props).nodeProps, (l, n)) {
      NodePropSetAt(t, g, ids, labels, props, l, n);
    }
    SameElsewhere(t, UpsertNodeProps(t, ids, props));
  }

  lemma {:induction false} EdgePropSetAt(t: Tables, g: LabelGraph, pairs: set<(nat, nat)>, named: set<Edge>, props: map<string, Json>, t': Tables,
                              a: string, b: string, n: string)
    requires EdgePropAt(t, a, b, n) == Find(g.edgeProps, ((a, b), n)) && t'.ids == t.ids
    requires if a in t.ids && b in t.ids then (t.ids[a], t.ids[b]) in pairs <==> (a, b) in named else (a, b) !in named
    requires forall e :: Find(t'.edgeProps, (e, n)) == if e in pairs && n in props then Some(props[n]) else Find(t.edgeProps, (e, n))
    ensures EdgePropAt(t', a, b, n) == Find(WithEdgeProps(g, named, props).edgeProps, ((a, b), n))
  {
    assert ((a, b), n) in WithEdgeProps(g, named, props).edgeProps <==> ((a, b) in named && n in props) || ((a, b), n) in g.edgeProps;
    if a in t.ids && b in t.ids {
      var e := (t.ids[a], t.ids[b]);
      assert Find(t'.edgeProps, (e, n)) == if e in pairs && n in props then Some(props[n]) else Find(t.edgeProps, (e, n));
    }
  }

  /** Setting properties of rows is setting properties of the edges they are. */
  lemma {:induction false} EdgeRowsSet(t: Tables, g: LabelGraph, pairs: set<(nat, nat)>, named: set<Edge>, props: map<string, Json>, t': Tables)
    requires Shows(t, g) && SamePairs(t, pairs, named) && t' == t.(edgeProps := t'.edgeProps)
    requires forall e, n :: Find(t'.edgeProps, (e, n)) == if e in pairs && n in props then Some(props[n]) else Find(t.edgeProps, (e, n))
    ensures Shows(t', WithEdgeProps(g, named, props))
  {
    hide EdgeAt, NodePropAt, EdgePropAt, Find;
    forall a, b, n ensures EdgePropAt(t', a, b, n) == Find(WithEdgeProps(g, named, props).edgeProps, ((a, b), n)) {
      EdgePropSetAt(t, g, pairs, named, props, t', a, b, n);
    }
    SameElsewhere(t, t');
  }

  lemma {:induction false} EdgePropsSet(t: Tables, g: LabelGraph, pairs: set<(nat, nat)>, named: set<Edge>, props: map<string, Json>)
    requires Shows(t, g) && SamePairs(t, pairs, named)
    ensures UpsertEdgeRows(t, pairs, props).Ok? ==> Shows(UpsertEdgeRows(t, pairs, props).value, WithEdgeProps(g, named, props))
  {
    hide Shows, WithEdgeProps, SamePairs;
    if UpsertEdgeRows(t, pairs, props).Ok? {
      EdgeRowsSet(t, g, pairs, named, props, UpsertEdgeRows(t, pairs, props).value);
    }
  }

  lemma {:induction false} EdgePropSet(t: Tables, g: LabelGraph, pairs: set<(nat, nat)>, named: set<Edge>, name: string, value: Json)
    requires Shows(t, g) && SamePairs(t, pairs, named)
    ensures UpsertEdgeProps(t, pairs, name, value).Ok? ==>
              Shows(UpsertEdgeProps(t, pairs, name, value).value, WithEdgeProps(g, named, map[name := value]))
  {
    hide Shows, WithEdgeProps, SamePairs;
    if UpsertEdgeProps(t, pairs, name, value).Ok? {
      EdgeRowsSet(t, g, pairs, named, map[name := value], UpsertEdgeProps(t, pairs, name, value).value);
    }
  }

  lemma {:induction false} NodeDeletedAt(t: Tables, g: LabelGraph, node: string, a: string, b: string, n: string)
    requires forall l :: l in t.ids && node in t.ids && t.ids[l] == t.ids[node] ==> l == node
    requires node in t.ids ==> t.ids[node] in t.labels
    requires EdgeAt(t, a, b) == Find(g.edges, (a, b)) && NodePropAt(t, a, n) == Find(g.nodeProps, (a, n))
    requires EdgePropAt(t, a, b, n) == Find(g.edgeProps, ((a, b), n))
    ensures var t', g' := DeleteNodeRow(t, IdOf(t, node)), WithoutNode(g, node);
            && EdgeAt(t', a, b) == Find(g'.edges, (a, b)) && NodePropAt(t', a, n) == Find(g'.nodeProps, (a, n))
            && EdgePropAt(t', a, b, n) == Find(g'.edgeProps, ((a, b), n))
  {
  }

  lemma {:induction false} NodeDeleted(t: Tables, g: LabelGraph, node: string)
    requires WellFormed(t) && Shows(t, g)
    ensures Shows(DeleteNodeRow(t, IdOf(t, node)), WithoutNode(g, node))
  {
    var t', g' := DeleteNodeRow(t, IdOf(t, node)), WithoutNode(g, node);
    assert g'.nodes == t'.ids.Keys;
    hide LinksOk, EdgeAt, NodePropAt, EdgePropAt, Find, DeleteNodeRow, WithoutNode;
    forall a, b ensures EdgeAt(t', a, b) == Find(g'.edges, (a, b)) {
      NodeDeletedAt(t, g, node, a, b, "");
    }
    forall a, n ensures NodePropAt(t', a, n) == Find(g'.nodeProps, (a, n)) {
      NodeDeletedAt(t, g, node, a, a, n);
    }
    forall a, b, n ensures EdgePropAt(t', a, b, n) == Find(g'.edgeProps, ((a, b), n)) {
      NodeDeletedAt(t, g, node, a, b, n);
    }
  }

  lemma {:induction false} EdgeDeletedAt(t: Tables, g: LabelGraph, x: string, y: string, a: string, b: string, n: string)
    requires forall l, k :: l in t.ids && k in t.ids && t.ids[l] == t.ids[k] ==> l == k
    requires EdgeAt(t, a, b) == Find(g.edges, (a, b)) && EdgePropAt(t, a, b, n) == Find(g.edgeProps, ((a, b), n))
    ensures var t', g' := DeleteEdgeRow(t, IdOf(t, x), IdOf(t, y)), WithoutEdge(g, (x, y));
            EdgeAt(t', a, b) == Find(g'.edges, (a, b)) && EdgePropAt(t', a, b, n) == Find(g'.edgeProps, ((a, b), n))
  {
  }

  lemma {:induction false} EdgeDeleted(t: Tables, g: LabelGraph, x: string, y: string)
    requires WellFormed(t) && Shows(t, g)
    ensures Shows(DeleteEdgeRow(t, IdOf(t, x), IdOf(t, y)), WithoutEdge(g, (x, y)))
  {
    var t', g' := DeleteEdgeRow(t, IdOf(t, x), IdOf(t, y)), WithoutEdge(g, (x, y));
    SameElsewhere(t, t');
    assert t'.nodeProps == t.nodeProps && t'.ids == t.ids && g'.nodeProps == g.nodeProps && g'.nodes == g.nodes;
    hide LinksOk, EdgeAt, NodePropAt, EdgePropAt, Find, DeleteEdgeRow, WithoutEdge;
    forall a, b ensures EdgeAt(t', a, b) == Find(g'.edges, (a, b)) {
      EdgeDeletedAt(t, g, x, y, a, b, "");
    }
    forall a, b, n ensures EdgePropAt(t', a, b, n) == Find(g'.edgeProps, ((a, b), n)) {
      EdgeDeletedAt(t, g, x, y, a, b, n);
    }
  }

  lemma {:induction false} NodeOpShown(t: Tables, g: LabelGraph, op: Op, now: int)
    requires WellFormed(t) && Shows(t, g) && OnNodes(op)
    ensures Shows(Plain(t, op, now).0, Next(g, op, now))
  {
    hide Shows, InsertNodes, DeleteNodeRow, UpsertNodeProps, WithNodeProps, WithoutNode, NodesOk, LinksOk;
    ShowsTheNodes(t, g);
    match op
    case EnsureNode(l) =>
      NodesShown(t, g, [l]);
      assert (set k | k in [l]) == {l} && [l][0] == l;
    case EnsureNodes(ls) => NodesShown(t, g, ls);
    case DeleteNode(l) => NodeDeleted(t, g, l);
    case SetNodeProperty(l, n, v) => OneNodeSet(t, g, l, map[n := v]);
    case SetNodesProperty(ls, n, v) => IdsOfKnown(t, ls); NodePropsSet(t, g, IdsOf(t, ls), ls, map[n := v]);
    case SetNodeProperties(l, props) => OneNodeSet(t, g, l, props);
    case _ =>
  }

  lemma {:induction false} ShowsTheNodes(t: Tables, g: LabelGraph)
    requires WellFormed(t) && Shows(t, g)
    ensures g.nodes == t.ids.Keys && forall l :: l in t.ids ==> t.ids[l] in t.labels
  {
  }

  lemma {:induction false} OneNodeSet(t: Tables, g: LabelGraph, l: string, props: map<string, Json>)
    requires WellFormed(t) && Shows(t, g)
    ensures Shows(UpsertNodeProps(t, One(IdOf(t, l)), props), WithNodeProps(g, [l], props))
    ensures l in t.ids ==> One(IdOf(t, l)) == {t.ids[l]}
  {
    hide Shows, UpsertNodeProps, WithNodeProps;
    IdsOfKnown(t, [l]);
    NodePropsSet(t, g, One(IdOf(t, l)), [l], props);
  }

  lemma {:induction false} JoinShown(t: Tables, g: LabelGraph, op: Op, now: int)
    requires WellFormed(t) && Shows(t, g) && (op.EnsureEdge? || op.EnsureFromEdges? || op.EnsureToEdges?)
    ensures Shows(Plain(t, op, now).0, Next(g, op, now))
  {
    hide Shows, InsertEdges, Joined, NodesOk, LinksOk, Pairs, Known, Named, IdsOf;
    ShowsTheNodes(t, g);
    match op
    case EnsureEdge(a, b) =>
      PairShown(t, g, a, b);
      EdgesJoined(t, g, Pairs(One(IdOf(t, a)), One(IdOf(t, b))), Known(g, {(a, b)}), now);
    case EnsureFromEdges(a, bs) =>
      PairsShown(t, g, a, bs);
      EdgesJoined(t, g, Pairs(One(IdOf(t, a)), IdsOf(t, bs)), Known(g, Named([a], bs)), now);
    case EnsureToEdges(xs, b) =>
      PairsShown(t, g, b, xs);
      EdgesJoined(t, g, Pairs(IdsOf(t, xs), One(IdOf(t, b))), Known(g, Named(xs, [b])), now);
  }

  /** A setter of edge properties is refused exactly when it is so on labels. */
  lemma {:induction false} PropsShown(t: Tables, g: LabelGraph, op: Op, now: int)
    requires WellFormed(t) && Shows(t, g)
    requires op.SetEdgeProperty? || op.SetEdgeProperties? || op.SetFromEdgesProperty? || op.SetToEdgesProperty?
    ensures Shows(Plain(t, op, now).0, Next(g, op, now))
    ensures Plain(t, op, now).1 == if Allows(g, op) then Done else Failed
  {
    hide Shows, WithEdgeProps, WellFormed, Pairs, Known, Named, IdsOf, One, SamePairs;
    match op
    case SetEdgeProperty(a, b, n, v) =>
      PairShown(t, g, a, b);
      EdgePropSet(t, g, Pairs(One(IdOf(t, a)), One(IdOf(t, b))), Known(g, {(a, b)}), n, v);
    case SetEdgeProperties(a, b, props) =>
      PairShown(t, g, a, b);
      EdgePropsSet(t, g, Pairs(One(IdOf(t, a)), One(IdOf(t, b))), Known(g, {(a, b)}), props);
    case SetFromEdgesProperty(a, bs, n, v) =>
      PairsShown(t, g, a, bs);
      PairsAreEdges(t, g, Pairs(One(IdOf(t, a)), IdsOf(t, bs)), Known(g, Named([a], bs)));
      EdgePropSet(t, g, Pairs(One(IdOf(t, a)), IdsOf(t, bs)), Known(g, Named([a], bs)), n, v);
    case SetToEdgesProperty(xs, b, n, v) =>
      PairsShown(t, g, b, xs);
      PairsAreEdges(t, g, Pairs(IdsOf(t, xs), One(IdOf(t, b))), Known(g, Named(xs, [b])));
      EdgePropSet(t, g, Pairs(IdsOf(t, xs), One(IdOf(t, b))), Known(g, Named(xs, [b])), n, v);
  }

  lemma {:induction false} OpShown(t: Tables, g: LabelGraph, op: Op, now: int)
    requires WellFormed(t) && Shows(t, g)
    ensures Shows(Plain(t, op, now).0, Next(g, op, now))
  {
    hide Shows, WellFormed;
    if OnNodes(op) {
      NodeOpShown(t, g, op, now);
    } else if op.EnsureEdge? || op.EnsureFromEdges? || op.EnsureToEdges? {
      JoinShown(t, g, op, now);
    } else if op.SetEdgeProperty? || op.SetEdgeProperties? || op.SetFromEdgesProperty? || op.SetToEdgesProperty? {
      PropsShown(t, g, op, now);
    } else if op.DeleteEdge? {
      hide DeleteEdgeRow, WithoutEdge;
      EdgeDeleted(t, g, op.from, op.to);
    }
  }

  // ---- and answer like it ----

  lemma {:induction false} RowsShown(t: Tables, g: LabelGraph, a: string, b: string, n: string)
    requires WellFormed(t) && Shows(t, g)
    ensures NodeRow(t, IdOf(t, a), n) == Find(g.nodeProps, (a, n))
    ensures EdgeRow(t, IdOf(t, a), IdOf(t, b), n) == Find(g.edgeProps, ((a, b), n))
  {
    hide WellFormed;
    assert NodePropAt(t, a, n) == Find(g.nodeProps, (a, n));
    assert EdgePropAt(t, a, b, n) == Find(g.edgeProps, ((a, b), n));
  }

  lemma {:induction false} NodesReadShown(t: Tables, g: LabelGraph, labels: seq<string>, name: string)
    requires WellFormed(t) && Shows(t, g)
    ensures Answered(g, GetNodesProperty(labels, name), Values(NodeValues(t, labels, name)))
  {
    hide WellFormed, Shows;
    forall l ensures NodeRow(t, IdOf(t, l), name) == Find(g.nodeProps, (l, name)) {
      RowsShown(t, g, l, l, name);
    }
  }

  lemma {:induction false} PropertiesShown(t: Tables, g: LabelGraph, a: string, b: string)
    requires WellFormed(t) && Shows(t, g)
    ensures Answered(g, GetNodeProperties(a), Values(NodeProps(t, IdOf(t, a))))
    ensures Answered(g, GetEdgeProperties(a, b), Values(EdgeProps(t, IdOf(t, a), IdOf(t, b))))
  {
    hide WellFormed, Shows, EdgeRow, NodeRow, NodeNames, EdgeNames, IdOf;
    forall n
      ensures NodeRow(t, IdOf(t, a), n) == Find(g.nodeProps, (a, n))
      ensures EdgeRow(t, IdOf(t, a), IdOf(t, b), n) == Find(g.edgeProps, ((a, b), n))
    {
      RowsShown(t, g, a, b, n);
    }
  }

  lemma {:induction false} EdgesReadShown(t: Tables, g: LabelGraph, a: string, bs: seq<string>, name: string)
    requires WellFormed(t) && Shows(t, g)
    ensures Answered(g, GetFromEdgesProperty(a, bs, name), Values(FromEdgeValues(t, a, bs, name)))
    ensures Answered(g, GetToEdgesProperty(bs, a, name), Values(ToEdgeValues(t, bs, a, name)))
  {
    hide WellFormed, Shows, EdgeRow, IdOf;
    forall b
      ensures EdgeRow(t, IdOf(t, a), IdOf(t, b), name) == Find(g.edgeProps, ((a, b), name))
      ensures EdgeRow(t, IdOf(t, b), IdOf(t, a), name) == Find(g.edgeProps, ((b, a), name))
    {
      RowsShown(t, g, a, b, name);
      RowsShown(t, g, b, a, name);
    }
  }

  lemma {:induction false} FirstShown(t: Tables, g: LabelGraph, l: string)
    requires WellFormed(t) && Shows(t, g)
    ensures Answered(g, FirstNeighbor(l), Neighbor(FirstNeighborOf(t, IdOf(t, l))))
  {
    hide NodePropAt, EdgePropAt;
    if l !in t.ids || Incident(t, t.ids[l]) == {} {
      forall e | e in g.edges ensures e.0 != l && e.1 != l {
        assert EdgeAt(t, e.0, e.1) == Find(g.edges, e);
        assert l in t.ids ==> (t.ids[e.0], t.ids[e.1]) !in Incident(t, t.ids[l]);
      }
    } else {
      SomeNeighborShown(t, g, l);
    }
  }

  lemma {:induction false} SomeNeighborShown(t: Tables, g: LabelGraph, l: string)
    requires WellFormed(t) && Shows(t, g) && l in t.ids && Incident(t, t.ids[l]) != {}
    ensures exists e :: Oldest(g, l, e) && FirstNeighborOf(t, IdOf(t, l)) == Some(if e.0 == l then e.1 else e.0)
  {
    hide NodePropAt, EdgePropAt;
    var id := t.ids[l];
    FirstEdgeExists(t, Incident(t, id));
    var row :| IsFirstEdge(t, row, Incident(t, id)) && FirstNeighborOf(t, Some(id)) == LabelOf(t, OtherEnd(row, id));
    var e := (t.labels[row.0], t.labels[row.1]);
    assert EdgeAt(t, e.0, e.1) == Find(g.edges, e);
    forall f | f in g.edges && (f.0 == l || f.1 == l) ensures g.edges[e] <= g.edges[f] {
      assert EdgeAt(t, f.0, f.1) == Find(g.edges, f);
      assert (t.ids[f.0], t.ids[f.1]) in Incident(t, id);
    }
    assert Oldest(g, l, e);
  }

  /** Edges of one age are told apart by the ids of their ends: the node that was there
      first comes first. */
  lemma {:induction false} TiesGoById(t: Tables, e: (nat, nat), f: (nat, nat), id: nat)
    requires IsFirstEdge(t, e, Incident(t, id)) && f in Incident(t, id) && t.edges[e] == t.edges[f]
    ensures e.0 < f.0 || (e.0 == f.0 && e.1 <= f.1)
  {
  }

  predicate Reads(op: Op) {
    op.HasNode? || op.GetNodeProperty? || op.GetNodesProperty? || op.GetNodeProperties? || op.HasEdge? || op.GetEdgeProperty? ||
    op.GetEdgeProperties? || op.GetFromEdgesProperty? || op.GetToEdgesProperty? || op.FirstNeighbor?
  }

  lemma {:induction false} WriteAnswered(t: Tables, g: LabelGraph, op: Op, now: int)
    requires WellFormed(t) && Shows(t, g) && !Reads(op)
    ensures Answered(g, op, Plain(t, op, now).1)
  {
    hide Shows, WellFormed, InsertNodes, UpsertNodeProps, DeleteNodeRow, InsertEdges, UpsertEdgeProps, UpsertEdgeRows, DeleteEdgeRow,
         Known, Named, Pairs, IdsOf, SetEdgeValue, One;
    ShowsTheNodes(t, g);
    match op
    case EnsureNode(l) => NodesShown(t, g, [l]); assert [l][0] == l;
    case EnsureNodes(ls) => NodesShown(t, g, ls);
    case _ =>
      if op.SetEdgeProperty? || op.SetEdgeProperties? || op.SetFromEdgesProperty? || op.SetToEdgesProperty? {
        PropsShown(t, g, op, now);
      }
  }

  lemma {:induction false} NodeReadAnswered(t: Tables, g: LabelGraph, op: Op, now: int)
    requires WellFormed(t) && Shows(t, g) && Reads(op) && OnNodes(op)
    ensures Answered(g, op, Plain(t, op, now).1)
  {
    hide Shows, WellFormed, NodeValues, NodeProps, NodeRow;
    match op
    case HasNode(l) => ShowsTheNodes(t, g);
    case GetNodeProperty(l, n) => RowsShown(t, g, l, l, n);
    case GetNodesProperty(ls, n) => NodesReadShown(t, g, ls, n);
    case GetNodeProperties(l) => PropertiesShown(t, g, l, l);
  }

  lemma {:induction false} EdgeReadAnswered(t: Tables, g: LabelGraph, op: Op, now: int)
    requires WellFormed(t) && Shows(t, g) && Reads(op) && !OnNodes(op)
    ensures Answered(g, op, Plain(t, op, now).1)
  {
    hide Shows, WellFormed, FirstNeighborOf, EdgeProps, FromEdgeValues, ToEdgeValues, EdgeRow;
    match op
    case HasEdge(a, b) => PairShown(t, g, a, b);
    case GetEdgeProperty(a, b, n) => RowsShown(t, g, a, b, n);
    case GetEdgeProperties(a, b) => PropertiesShown(t, g, a, b);
    case GetFromEdgesProperty(a, bs, n) => EdgesReadShown(t, g, a, bs, n);
    case GetToEdgesProperty(xs, b, n) => EdgesReadShown(t, g, b, xs, n);
    case FirstNeighbor(l) => FirstShown(t, g, l);
  }

  lemma {:induction false} OpAnswered(t: Tables, g: LabelGraph, op: Op, now: int)
    requires WellFormed(t) && Shows(t, g)
    ensures Answered(g, op, Plain(t, op, now).1)
  {
    hide Shows, WellFormed, Plain, Answered;
    if !Reads(op) {
      WriteAnswered(t, g, op, now);
    } else if OnNodes(op) {
      NodeReadAnswered(t, g, op, now);
    } else {
      EdgeReadAnswered(t, g, op, now);
    }
  }

  // ---- whole runs ----

  function NextAll(g: LabelGraph, ops: seq<(Op, int)>): LabelGraph {
    if ops == [] then g else Next(NextAll(g, ops[..|ops| - 1]), ops[|ops| - 1].0, ops[|ops| - 1].1)
  }

  ghost predicate AnsweredAt(g: LabelGraph, ops: seq<(Op, int)>, answers: seq<Answer>, i: nat)
    requires i < |ops| <= |answers|
  {
    Answered(NextAll(g, ops[..i]), ops[i].0, answers[i])
  }

  lemma {:induction false} OneMoreCall(t: Tables, g: LabelGraph, ops: seq<(Op, int)>, op: Op, now: int)
    ensures NextAll(g, ops + [(op, now)]) == Next(NextAll(g, ops), op, now)
    ensures PlainRun(t, ops + [(op, now)]).0 == Plain(PlainRun(t, ops).0, op, now).0
    ensures PlainRun(t, ops + [(op, now)]).1 == PlainRun(t, ops).1 + [Plain(PlainRun(t, ops).0, op, now).1]
  {
    hide Plain, Next;
    assert (ops + [(op, now)])[..|ops|] == ops;
  }

  lemma {:induction false} AnswersLast(g: LabelGraph, ops: seq<(Op, int)>, op: Op, now: int, answers: seq<Answer>, a: Answer)
    requires |answers| == |ops| && Answered(NextAll(g, ops), op, a)
    requires forall i :: 0 <= i < |ops| ==> AnsweredAt(g, ops, answers, i)
    ensures forall i :: 0 <= i <= |ops| ==> AnsweredAt(g, ops + [(op, now)], answers + [a], i)
  {
    hide Answered, NextAll;
    forall i | 0 <= i <= |ops| ensures AnsweredAt(g, ops + [(op, now)], answers + [a], i) {
      assert (ops + [(op, now)])[..i] == ops[..i] && ops[..|ops|] == ops;
      assert i < |ops| ==> AnsweredAt(g, ops, answers, i);
    }
  }

  /** Any run of the store ends in the graph of labels, and answers as that does. */
  lemma {:induction false} RunShown(t: Tables, g: LabelGraph, ops: seq<(Op, int)>)
    requires WellFormed(t) && Shows(t, g)
    ensures Shows(PlainRun(t, ops).0, NextAll(g, ops)) && |PlainRun(t, ops).1| == |ops|
    ensures forall i :: 0 <= i < |ops| ==> AnsweredAt(g, ops, PlainRun(t, ops).1, i)
  {
    if ops != [] {
      hide Plain, Next, Shows, Answered, WellFormed, NextAll, PlainRun, AnsweredAt;
      var most, op, now := ops[..|ops| - 1], ops[|ops| - 1].0, ops[|ops| - 1].1;
      assert ops == most + [(op, now)];
      RunShown(t, g, most);
      PlainRunKeeps(t, most);
      OpShown(PlainRun(t, most).0, NextAll(g, most), op, now);
      OpAnswered(PlainRun(t, most).0, NextAll(g, most), op, now);
      OneMoreCall(t, g, most, op, now);
      AnswersLast(g, most, op, now, PlainRun(t, most).1, Plain(PlainRun(t, most).0, op, now).1);
    }
  }

  /** Consistent tables hold a graph. */
  ghost function GraphOf(t: Tables): (g: LabelGraph)
    requires WellFormed(t)
    ensures Shows(t, g)
  {
    LabelGraph(t.ids.Keys, EdgesOf(t), NodePropsOf(t), EdgePropsOf(t))
  }

  ghost function EdgesOf(t: Tables): (edges: map<Edge, int>)
    ensures forall a, b :: EdgeAt(t, a, b) == Find(edges, (a, b))
  {
    map a, b | a in t.ids && b in t.ids && (t.ids[a], t.ids[b]) in t.edges :: (a, b) := t.edges[(t.ids[a], t.ids[b])]
  }

  ghost function NodePropsOf(t: Tables): (props: map<(string, string), Json>)
    requires WellFormed(t)
    ensures forall l, n :: NodePropAt(t, l, n) == Find(props, (l, n))
  {
    map k | k in t.nodeProps :: (t.labels[k.0], k.1) := t.nodeProps[k]
  }

  ghost function EdgePropsOf(t: Tables): (props: map<(Edge, string), Json>)
    requires WellFormed(t)
    ensures forall a, b, n :: EdgePropAt(t, a, b, n) == Find(props, ((a, b), n))
  {
    map k | k in t.edgeProps :: ((t.labels[k.0.0], t.labels[k.0.1]), k.1) := t.edgeProps[k]
  }

  // ---- what that means for the answers ----

  predicate SetsEdges(op: Op) {
    op.SetEdgeProperty? || op.SetEdgeProperties? || op.SetFromEdgesProperty? || op.SetToEdgesProperty?
  }

  /** What a setter gives property `n` of the edge from `a` to `b`. */
  function Given(op: Op, a: string, b: string, n: string): Option<Json> {
    match op
    case SetEdgeProperty(x, y, m, v) => if a == x && b == y && n == m then Some(v) else None
    case SetEdgeProperties(x, y, props) => if a == x && b == y && n in props then Some(props[n]) else None
    case SetFromEdgesProperty(x, ys, m, v) => if a == x && b in ys && n == m then Some(v) else None
    case SetToEdgesProperty(xs, y, m, v) => if a in xs && b == y && n == m then Some(v) else None
    case _ => None
  }

  /** Python's `None` for nothing stored, and for a stored null. */
  function AsRead(stored: Option<Json>): Answer {
    Value(if stored == Some(Null) then None else stored)
  }

  /** The single reads of the store, on the graph it holds. */
  lemma {:induction false} SingleReads(t: Tables, g: LabelGraph, a: string, b: string, n: string, now: int)
    requires WellFormed(t) && Shows(t, g)
    ensures Plain(t, HasEdge(a, b), now).1 == Truth((a, b) in g.edges)
    ensures Plain(t, GetNodeProperty(a, n), now).1 == AsRead(Find(g.nodeProps, (a, n)))
    ensures Plain(t, GetEdgeProperty(a, b, n), now).1 == AsRead(Find(g.edgeProps, ((a, b), n)))
    ensures (a, b) in g.edges ==> a in g.nodes && b in g.nodes
  {
    hide Plain, WellFormed;
    OpAnswered(t, g, HasEdge(a, b), now);
    OpAnswered(t, g, GetNodeProperty(a, n), now);
    OpAnswered(t, g, GetEdgeProperty(a, b, n), now);
    assert EdgeAt(t, a, b) == Find(g.edges, (a, b));
  }

  /** After a setter that was not refused each existing edge it names reads the value it
      was given, a null as nothing; every other edge property, all node properties and the
      edges themselves read as before. */
  lemma {:induction false} EdgeSetterReads(t: Tables, op: Op, now: int, a: string, b: string, n: string)
    requires WellFormed(t) && SetsEdges(op) && Plain(t, op, now).1 == Done
    ensures var t' := Plain(t, op, now).0;
            && Plain(t', HasEdge(a, b), now).1 == Plain(t, HasEdge(a, b), now).1
            && Plain(t', GetNodeProperty(a, n), now).1 == Plain(t, GetNodeProperty(a, n), now).1
            && Plain(t', GetEdgeProperty(a, b, n), now).1 ==
               if Plain(t, HasEdge(a, b), now).1 == Truth(true) && Given(op, a, b, n).Some? then AsRead(Given(op, a, b, n))
               else Plain(t, GetEdgeProperty(a, b, n), now).1
  {
    hide Plain, WellFormed, Shows, Allows, Effect, Given, Find, GraphOf;
    var g, t' := GraphOf(t), Plain(t, op, now).0;
    PlainKeeps(t, op, now);
    OpShown(t, g, op, now);
    OpAnswered(t, g, op, now);
    SingleReads(t, g, a, b, n, now);
    SingleReads(t', Next(g, op, now), a, b, n, now);
    EdgeSetterSets(g, op, now, a, b, n);
  }

  lemma {:induction false} EdgeSetterSets(g: LabelGraph, op: Op, now: int, a: string, b: string, n: string)
    requires SetsEdges(op) && Allows(g, op) && ((a, b) in g.edges ==> a in g.nodes && b in g.nodes)
    ensures Next(g, op, now).edges == g.edges && Next(g, op, now).nodeProps == g.nodeProps
    ensures Find(Next(g, op, now).edgeProps, ((a, b), n)) ==
            if (a, b) in g.edges && Given(op, a, b, n).Some? then Given(op, a, b, n) else Find(g.edgeProps, ((a, b), n))
  {
    hide WithEdgeProps;
    match op
    case SetEdgeProperty(x, y, m, v) => GivenAt(g, {(x, y)}, map[m := v], (a, b), n);
    case SetEdgeProperties(x, y, props) => GivenAt(g, Known(g, {(x, y)}), props, (a, b), n);
    case SetFromEdgesProperty(x, ys, m, v) => GivenAt(g, Known(g, Named([x], ys)), map[m := v], (a, b), n);
    case SetToEdgesProperty(xs, y, m, v) => GivenAt(g, Known(g, Named(xs, [y])), map[m := v], (a, b), n);
  }

  lemma {:induction false} GivenAt(g: LabelGraph, pairs: set<Edge>, props: map<string, Json>, e: Edge, n: string)
    ensures WithEdgeProps(g, pairs, props).edges == g.edges && WithEdgeProps(g, pairs, props).nodeProps == g.nodeProps
    ensures Find(WithEdgeProps(g, pairs, props).edgeProps, (e, n)) ==
            if e in pairs && n in props then Some(props[n]) else Find(g.edgeProps, (e, n))
  {
    assert (e, n) in WithEdgeProps(g, pairs, props).edgeProps <==> (e in pairs && n in props) || (e, n) in g.edgeProps;
  }

  lemma {:induction false} RemovedAt(g: LabelGraph, x: string, y: string, now: int, a: string, b: string, n: string)
    ensures var g' := Next(g, DeleteEdge(x, y), now);
            && ((a, b) in g'.edges <==> (a, b) in g.edges && !(a == x && b == y))
            && Find(g'.edgeProps, ((a, b), n)) == if a == x && b == y then None else Find(g.edgeProps, ((a, b), n))
  {
  }

  /** A deleted edge is gone and so are its properties; all others stay. */
  lemma {:induction false} DeletedEdgeReads(t: Tables, x: string, y: string, now: int, a: string, b: string, n: string)
    requires WellFormed(t)
    ensures var t' := Plain(t, DeleteEdge(x, y), now).0;
            && Plain(t', HasEdge(a, b), now).1 == (if a == x && b == y then Truth(false) else Plain(t, HasEdge(a, b), now).1)
            && Plain(t', GetEdgeProperty(a, b, n), now).1 ==
               (if a == x && b == y then Value(None) else Plain(t, GetEdgeProperty(a, b, n), now).1)
  {
    hide Plain, WellFormed, Shows, Find, Next, GraphOf;
    var g, t' := GraphOf(t), Plain(t, DeleteEdge(x, y), now).0;
    PlainKeeps(t, DeleteEdge(x, y), now);
    OpShown(t, g, DeleteEdge(x, y), now);
    RemovedAt(g, x, y, now, a, b, n);
    SingleReads(t, g, a, b, n, now);
    SingleReads(t', Next(g, DeleteEdge(x, y), now), a, b, n, now);
  }

  /** Ensuring an edge again leaves its age; a new one dates from the call. */
  lemma {:induction false} EnsuredEdgeKeepsItsAge(t: Tables, op: Op, now: int, a: string, b: string)
    requires WellFormed(t) && (op.EnsureEdge? || op.EnsureFromEdges? || op.EnsureToEdges?)
    ensures EdgeAt(t, a, b).Some? ==> EdgeAt(Plain(t, op, now).0, a, b) == EdgeAt(t, a, b)
    ensures EdgeAt(t, a, b) == None ==> EdgeAt(Plain(t, op, now).0, a, b) in {None, Some(now)}
  {
    hide Plain, WellFormed, Find, EdgeAt, GraphOf;
    var g := GraphOf(t);
    OpShown(t, g, op, now);
    JoinedAt(g, op, now, (a, b));
  }

  lemma {:induction false} JoinedAt(g: LabelGraph, op: Op, now: int, e: Edge)
    requires op.EnsureEdge? || op.EnsureFromEdges? || op.EnsureToEdges?
    ensures Find(g.edges, e).Some? ==> Find(Next(g, op, now).edges, e) == Find(g.edges, e)
    ensures Find(g.edges, e) == None ==> Find(Next(g, op, now).edges, e) in {None, Some(now)}
  {
  }
}
