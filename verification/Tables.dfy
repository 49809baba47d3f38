/**
 The relational tables of the graph (pub_crawler/database.py) and the SQL
 statements of pub_crawler/database_graph.py as functions on them.

 `Plain` is the graph store with no caches: what each operation answers and does
 when every label and id is looked up in the tables.
 */
module GraphTables {
  import opened Options
  import opened JsonValues

  /** VARCHAR(256): a longer label makes the insert fail. */
  const MAX_LABEL: nat := 256

  /** `ids` and `labels` are the two unique indexes of the node table; ids are
      never given out twice. `edges` maps an edge to its created_at. */
  datatype Tables = Tables(
    nextId: nat,
    ids: map<string, nat>,
    labels: map<nat, string>,
    edges: map<(nat, nat), int>,
    nodeProps: map<(nat, string), Json>,
    edgeProps: map<((nat, nat), string), Json>)

  const EMPTY := Tables(1, map[], map[], map[], map[], map[])

  ghost predicate WellFormed(t: Tables) {
    NodesOk(t) && LinksOk(t)
  }

  /** The indexes agree, ids are below the sequence, labels fit their column. */
  ghost predicate NodesOk(t: Tables) {
    && (forall l :: l in t.ids ==> t.ids[l] in t.labels && t.labels[t.ids[l]] == l && |l| <= MAX_LABEL)
    && (forall i :: i in t.labels ==> i < t.nextId && t.labels[i] in t.ids && t.ids[t.labels[i]] == i)
  }

  /** The foreign keys hold. */
  ghost predicate LinksOk(t: Tables) {
    && (forall e :: e in t.edges ==> e.0 in t.labels && e.1 in t.labels)
    && (forall k :: k in t.nodeProps ==> k.0 in t.labels)
    && (forall k :: k in t.edgeProps ==> k.0 in t.edges)
  }

  // ---- lookups ----

  function IdOf(t: Tables, node: string): Option<nat> {
    if node in t.ids then Some(t.ids[node]) else None
  }

  function LabelOf(t: Tables, id: nat): Option<string> {
    if id in t.labels then Some(t.labels[id]) else None
  }

  /** The rows `WHERE n.label = ANY(labels)` selects. */
  function IdsOf(t: Tables, labels: seq<string>): set<nat> {
    set l | l in labels && l in t.ids :: t.ids[l]
  }

  // ---- nodes ----

  function Unknown(t: Tables, labels: seq<string>): seq<string> {
    if labels == [] then []
    else (if labels[0] in t.ids then [] else [labels[0]]) + Unknown(t, labels[1..])
  }

  /** INSERT ... ON CONFLICT DO NOTHING row by row: a duplicate row still consumes an id. */
  function InsertRows(t: Tables, labels: seq<string>): Tables
    decreases |labels|
  {
    if labels == [] then t else InsertRows(InsertRow(t, labels[0]), labels[1..])
  }

  function InsertRow(t: Tables, node: string): Tables {
    if node in t.ids then t.(nextId := t.nextId + 1)
    else t.(nextId := t.nextId + 1, ids := t.ids[node := t.nextId], labels := t.labels[t.nextId := node])
  }

  /** The insert statement of `ensure_node` and `ensure_nodes`: rows whose label
      exists are filtered out before an id is drawn. */
  function InsertNodes(t: Tables, labels: seq<string>): Result<Tables> {
    var missing := Unknown(t, labels);
    if exists l :: l in missing && |l| > MAX_LABEL then Raised else Ok(InsertRows(t, missing))
  }

  /** DELETE FROM node WHERE id = $1, with the cascades. */
  function DeleteNodeRow(t: Tables, id: Option<nat>): Tables {
    if id.None? || id.value !in t.labels then t
    else
      t.(ids := map l | l in t.ids && t.ids[l] != id.value :: t.ids[l],
         labels := t.labels - {id.value},
         edges := map e | e in t.edges && e.0 != id.value && e.1 != id.value :: t.edges[e],
         nodeProps := map k | k in t.nodeProps && k.0 != id.value :: t.nodeProps[k],
         edgeProps := map k | k in t.edgeProps && k.0.0 != id.value && k.0.1 != id.value :: t.edgeProps[k])
  }

  /** Upsert of node properties; the foreign key makes an unknown id raise. */
  function UpsertNodeProps(t: Tables, ids: set<nat>, props: map<string, Json>): Tables {
    t.(nodeProps := t.nodeProps + map i, n | i in ids && n in props :: (i, n) := props[n])
  }

  // ---- edges ----

  function InsertEdges(t: Tables, pairs: set<(nat, nat)>, now: int): Tables {
    t.(edges := map e | e in pairs + t.edges.Keys :: if e in t.edges then t.edges[e] else now)
  }

  function InsertEdgeRow(t: Tables, from: Option<nat>, to: Option<nat>, now: int): Result<Tables> {
    if from.None? || to.None? || from.value !in t.labels || to.value !in t.labels then Raised
    else Ok(InsertEdges(t, {(from.value, to.value)}, now))
  }

  function DeleteEdgeRow(t: Tables, from: Option<nat>, to: Option<nat>): Tables {
    if from.None? || to.None? then t
    else
      var e := (from.value, to.value);
      t.(edges := t.edges - {e}, edgeProps := map k | k in t.edgeProps && k.0 != e :: t.edgeProps[k])
  }

  /** Upsert of one edge property; a pair that is not an edge violates the foreign key. */
  function UpsertEdgeProps(t: Tables, pairs: set<(nat, nat)>, name: string, value: Json): Result<Tables> {
    if !(pairs <= t.edges.Keys) then Raised
    else Ok(t.(edgeProps := t.edgeProps + map e | e in pairs :: (e, name) := value))
  }

  /** Upsert of several properties of the known pairs; no property, no row to violate it. */
  function UpsertEdgeRows(t: Tables, pairs: set<(nat, nat)>, props: map<string, Json>): Result<Tables> {
    if props != map[] && !(pairs <= t.edges.Keys) then Raised
    else Ok(t.(edgeProps := t.edgeProps + map e, n | e in pairs && n in props :: (e, n) := props[n]))
  }

  function Pairs(froms: set<nat>, tos: set<nat>): set<(nat, nat)> {
    set f, g | f in froms && g in tos :: (f, g)
  }

  // ---- first_neighbor ----

  function Incident(t: Tables, id: nat): set<(nat, nat)> {
    set e | e in t.edges && (e.0 == id || e.1 == id)
  }

  predicate EdgeBefore(t: Tables, e: (nat, nat), f: (nat, nat))
    requires e in t.edges && f in t.edges
  {
    t.edges[e] < t.edges[f] || (t.edges[e] == t.edges[f] && (e.0 < f.0 || (e.0 == f.0 && e.1 < f.1)))
  }

  /** First in the order created_at, from_node, to_node. */
  predicate IsFirstEdge(t: Tables, e: (nat, nat), among: set<(nat, nat)>)
    requires among <= t.edges.Keys
  {
    e in among && forall f :: f in among ==> f == e || EdgeBefore(t, e, f)
  }

  lemma {:induction false} FirstEdgeExists(t: Tables, among: set<(nat, nat)>)
    requires among != {} && among <= t.edges.Keys
    ensures exists e :: IsFirstEdge(t, e, among)
  {
    var e :| e in among;
    var rest := among - {e};
    assert among == rest + {e};
    if rest == {} {
      assert IsFirstEdge(t, e, among);
    } else {
      FirstEdgeExists(t, rest);
      var f :| IsFirstEdge(t, f, rest);
      assert IsFirstEdge(t, if EdgeBefore(t, f, e) then f else e, among);
    }
  }

  lemma {:induction false} FirstEdgeUnique(t: Tables, e: (nat, nat), f: (nat, nat), among: set<(nat, nat)>)
    requires among <= t.edges.Keys && IsFirstEdge(t, e, among) && IsFirstEdge(t, f, among)
    ensures e == f
  {
  }

  function OtherEnd(e: (nat, nat), id: nat): nat {
    if e.0 == id then e.1 else e.0
  }

  ghost function FirstNeighborOf(t: Tables, id: Option<nat>): Option<string> {
    if id.None? || Incident(t, id.value) == {} then None
    else
      FirstEdgeExists(t, Incident(t, id.value));
      var e :| IsFirstEdge(t, e, Incident(t, id.value));
      LabelOf(t, OtherEnd(e, id.value))
  }

  // ---- the operations of the graph ----

  datatype Op =
    | EnsureNode(node: string)
    | EnsureNodes(labels: seq<string>)
    | EnsureEdge(from: string, to: string)
    | EnsureFromEdges(from: string, tos: seq<string>)
    | EnsureToEdges(froms: seq<string>, to: string)
    | HasNode(node: string)
    | HasEdge(from: string, to: string)
    | DeleteNode(node: string)
    | DeleteEdge(from: string, to: string)
    | SetNodeProperty(node: string, name: string, value: Json)
    | SetNodesProperty(labels: seq<string>, name: string, value: Json)
    | SetNodeProperties(node: string, props: map<string, Json>)
    | SetEdgeProperty(from: string, to: string, name: string, value: Json)
    | SetEdgeProperties(from: string, to: string, props: map<string, Json>)
    | SetFromEdgesProperty(from: string, tos: seq<string>, name: string, value: Json)
    | SetToEdgesProperty(froms: seq<string>, to: string, name: string, value: Json)
    | GetNodeProperty(node: string, name: string)
    | GetNodesProperty(labels: seq<string>, name: string)
    | GetEdgeProperty(from: string, to: string, name: string)
    | GetNodeProperties(node: string)
    | GetEdgeProperties(from: string, to: string)
    | GetFromEdgesProperty(from: string, tos: seq<string>, name: string)
    | GetToEdgesProperty(froms: seq<string>, to: string, name: string)
    | FirstNeighbor(node: string)

  datatype Answer =
    | Done
    | Failed
    | Truth(b: bool)
    | Value(v: Option<Json>)
    | Values(vs: map<string, Json>)
    | Neighbor(node: Option<string>)

  predicate OnNodes(op: Op) {
    op.EnsureNode? || op.EnsureNodes? || op.HasNode? || op.DeleteNode? || op.SetNodeProperty? || op.SetNodesProperty? ||
    op.SetNodeProperties? || op.GetNodeProperty? || op.GetNodesProperty? || op.GetNodeProperties?
  }

  function OrFail(t: Tables, r: Result<Tables>): (Tables, Answer) {
    match r
    case Ok(t') => (t', Done)
    case Raised => (t, Failed)
  }

  function One(id: Option<nat>): set<nat> {
    if id.Some? then {id.value} else {}
  }

  /** The row of a node property. */
  function NodeRow(t: Tables, id: Option<nat>, name: string): Option<Json> {
    if id.Some? && (id.value, name) in t.nodeProps then Some(t.nodeProps[(id.value, name)]) else None
  }

  /** A stored JSON null reads back as Python's `None`, like a row that is not there. */
  function Loaded(row: Option<Json>): Option<Json> {
    if row == Some(Null) then None else row
  }

  function NodeValue(t: Tables, id: Option<nat>, name: string): Option<Json> {
    Loaded(NodeRow(t, id, name))
  }

  function NodeValues(t: Tables, labels: seq<string>, name: string): map<string, Json> {
    map l | l in labels && l in t.ids && (t.ids[l], name) in t.nodeProps :: t.nodeProps[(t.ids[l], name)]
  }

  function IsEdge(t: Tables, from: Option<nat>, to: Option<nat>): bool {
    from.Some? && to.Some? && (from.value, to.value) in t.edges
  }

  /** The row of an edge property. */
  function EdgeRow(t: Tables, from: Option<nat>, to: Option<nat>, name: string): Option<Json> {
    if from.Some? && to.Some? && ((from.value, to.value), name) in t.edgeProps
    then Some(t.edgeProps[((from.value, to.value), name)]) else None
  }

  function EdgeValue(t: Tables, from: Option<nat>, to: Option<nat>, name: string): Option<Json> {
    Loaded(EdgeRow(t, from, to, name))
  }

  /** All properties of a node, and of an edge. */
  function NodeProps(t: Tables, id: Option<nat>): map<string, Json> {
    map n | n in NodeNames(t, id) :: NodeRow(t, id, n).value
  }

  function NodeNames(t: Tables, id: Option<nat>): (names: set<string>)
    ensures forall n :: n in names <==> NodeRow(t, id, n).Some?
  {
    set k | k in t.nodeProps && Some(k.0) == id :: k.1
  }

  function EdgeProps(t: Tables, from: Option<nat>, to: Option<nat>): map<string, Json> {
    map n | n in EdgeNames(t, from, to) :: EdgeRow(t, from, to, n).value
  }

  function EdgeNames(t: Tables, from: Option<nat>, to: Option<nat>): (names: set<string>)
    ensures forall n :: n in names <==> EdgeRow(t, from, to, n).Some?
  {
    set k | k in t.edgeProps && Some(k.0.0) == from && Some(k.0.1) == to :: k.1
  }

  /** One property of the edges from a node to those labelled, and the other way round. */
  function FromEdgeValues(t: Tables, from: string, tos: seq<string>, name: string): map<string, Json> {
    map l | l in tos && EdgeRow(t, IdOf(t, from), IdOf(t, l), name).Some? :: EdgeRow(t, IdOf(t, from), IdOf(t, l), name).value
  }

  function ToEdgeValues(t: Tables, froms: seq<string>, to: string, name: string): map<string, Json> {
    map l | l in froms && EdgeRow(t, IdOf(t, l), IdOf(t, to), name).Some? :: EdgeRow(t, IdOf(t, l), IdOf(t, to), name).value
  }

  function SetEdgeValue(t: Tables, from: Option<nat>, to: Option<nat>, name: string, value: Json): Result<Tables> {
    if from.None? || to.None? then Raised else UpsertEdgeProps(t, {(from.value, to.value)}, name, value)
  }

  function SetNodeValue(t: Tables, id: Option<nat>, name: string, value: Json): Result<Tables> {
    if id.None? || id.value !in t.labels then Raised else Ok(UpsertNodeProps(t, {id.value}, map[name := value]))
  }

  /** The store with no caches; `now` is the transaction's timestamp. */
  ghost function Plain(t: Tables, op: Op, now: int): (Tables, Answer) {
    match op
    case EnsureNode(l) => OrFail(t, InsertNodes(t, [l]))
    case EnsureNodes(ls) => OrFail(t, InsertNodes(t, ls))
    case EnsureEdge(f, g) => OrFail(t, InsertEdgeRow(t, IdOf(t, f), IdOf(t, g), now))
    case EnsureFromEdges(f, gs) => (InsertEdges(t, Pairs(One(IdOf(t, f)), IdsOf(t, gs)), now), Done)
    case EnsureToEdges(fs, g) => (InsertEdges(t, Pairs(IdsOf(t, fs), One(IdOf(t, g))), now), Done)
    case HasNode(l) => (t, Truth(IdOf(t, l).Some?))
    case HasEdge(f, g) => (t, Truth(IsEdge(t, IdOf(t, f), IdOf(t, g))))
    case DeleteNode(l) => (DeleteNodeRow(t, IdOf(t, l)), Done)
    case DeleteEdge(f, g) => (DeleteEdgeRow(t, IdOf(t, f), IdOf(t, g)), Done)
    case SetNodeProperty(l, n, v) => OrFail(t, SetNodeValue(t, IdOf(t, l), n, v))
    case SetNodesProperty(ls, n, v) => (UpsertNodeProps(t, IdsOf(t, ls), map[n := v]), Done)
    case SetNodeProperties(l, props) => (UpsertNodeProps(t, One(IdOf(t, l)), props), Done)
    case SetEdgeProperty(f, g, n, v) => OrFail(t, SetEdgeValue(t, IdOf(t, f), IdOf(t, g), n, v))
    case SetEdgeProperties(f, g, props) => OrFail(t, UpsertEdgeRows(t, Pairs(One(IdOf(t, f)), One(IdOf(t, g))), props))
    case SetFromEdgesProperty(f, gs, n, v) => OrFail(t, UpsertEdgeProps(t, Pairs(One(IdOf(t, f)), IdsOf(t, gs)), n, v))
    case SetToEdgesProperty(fs, g, n, v) => OrFail(t, UpsertEdgeProps(t, Pairs(IdsOf(t, fs), One(IdOf(t, g))), n, v))
    case GetNodeProperty(l, n) => (t, Value(NodeValue(t, IdOf(t, l), n)))
    case GetNodesProperty(ls, n) => (t, Values(NodeValues(t, ls, n)))
    case GetEdgeProperty(f, g, n) => (t, Value(EdgeValue(t, IdOf(t, f), IdOf(t, g), n)))
    case GetNodeProperties(l) => (t, Values(NodeProps(t, IdOf(t, l))))
    case GetEdgeProperties(f, g) => (t, Values(EdgeProps(t, IdOf(t, f), IdOf(t, g))))
    case GetFromEdgesProperty(f, gs, n) => (t, Values(FromEdgeValues(t, f, gs, n)))
    case GetToEdgesProperty(fs, g, n) => (t, Values(ToEdgeValues(t, fs, g, n)))
    case FirstNeighbor(l) => (t, Neighbor(FirstNeighborOf(t, IdOf(t, l))))
  }

  /** A run of operations on the store with no caches: final tables and all answers. */
  ghost function PlainRun(t: Tables, ops: seq<(Op, int)>): (Tables, seq<Answer>) {
    if ops == [] then (t, [])
    else
      var n := |ops| - 1;
      var (t', answers) := PlainRun(t, ops[..n]);
      var (t'', a) := Plain(t', ops[n].0, ops[n].1);
      (t'', answers + [a])
  }

  // ---- every operation keeps the tables consistent ----

  /** `t'` has the nodes of `t` and the new `labels`, and nothing else changed. */
  ghost predicate Grown(t: Tables, t': Tables, labels: seq<string>) {
    && t'.ids.Keys == t.ids.Keys + (set l | l in labels)
    && (forall l :: l in t.ids ==> t'.ids[l] == t.ids[l])
    && (forall l :: l in t'.ids && l !in t.ids ==> t'.ids[l] !in t.labels)
    && t.labels.Keys <= t'.labels.Keys
    && t'.edges == t.edges && t'.nodeProps == t.nodeProps && t'.edgeProps == t.edgeProps
  }

  lemma {:induction false} InsertRowsKeeps(t: Tables, labels: seq<string>)
    requires NodesOk(t) && forall l :: l in labels ==> |l| <= MAX_LABEL
    ensures NodesOk(InsertRows(t, labels)) && Grown(t, InsertRows(t, labels), labels)
    decreases |labels|
  {
    if labels != [] {
      InsertRowKeeps(t, labels[0]);
      InsertRowsKeeps(InsertRow(t, labels[0]), labels[1..]);
      GrownTwice(t, InsertRow(t, labels[0]), InsertRows(t, labels), labels);
    }
  }

  lemma {:induction false} GrownTwice(t: Tables, t1: Tables, t2: Tables, labels: seq<string>)
    requires labels != [] && Grown(t, t1, [labels[0]]) && Grown(t1, t2, labels[1..])
    ensures Grown(t, t2, labels)
  {
    assert forall l :: l in labels <==> l == labels[0] || l in labels[1..];
  }

  lemma {:induction false} InsertRowKeeps(t: Tables, node: string)
    requires NodesOk(t) && |node| <= MAX_LABEL
    ensures NodesOk(InsertRow(t, node)) && Grown(t, InsertRow(t, node), [node])
  {
    InsertRowOk(t, node);
    InsertRowGrows(t, node);
  }

  lemma {:induction false} InsertRowOk(t: Tables, node: string)
    requires NodesOk(t) && |node| <= MAX_LABEL
    ensures NodesOk(InsertRow(t, node))
  {
    if node !in t.ids {
      var t' := InsertRow(t, node);
      forall l | l in t'.ids ensures t'.ids[l] in t'.labels && t'.labels[t'.ids[l]] == l && |l| <= MAX_LABEL {
        assert l != node ==> l in t.ids && t.ids[l] in t.labels && t.ids[l] < t.nextId;
      }
      forall i | i in t'.labels ensures i < t'.nextId && t'.labels[i] in t'.ids && t'.ids[t'.labels[i]] == i {
        assert i != t.nextId ==> i in t.labels && t.labels[i] in t.ids;
      }
    }
  }

  lemma {:induction false} InsertRowGrows(t: Tables, node: string)
    requires NodesOk(t)
    ensures Grown(t, InsertRow(t, node), [node])
  {
    assert (set l | l in [node]) == {node};
    assert t.nextId !in t.labels;
  }

  lemma {:induction false} UnknownIs(t: Tables, labels: seq<string>)
    ensures forall l :: l in Unknown(t, labels) <==> l in labels && l !in t.ids
  {
    if labels != [] {
      UnknownIs(t, labels[1..]);
    }
  }

  lemma {:induction false} InsertNodesKeeps(t: Tables, labels: seq<string>)
    requires WellFormed(t)
    ensures match InsertNodes(t, labels)
            case Ok(t') => WellFormed(t') && Grown(t, t', labels) && forall l :: l in labels ==> |l| <= MAX_LABEL
            case Raised => exists l :: l in labels && |l| > MAX_LABEL
  {
    var missing := Unknown(t, labels);
    UnknownIs(t, labels);
    if InsertNodes(t, labels).Ok? {
      InsertRowsKeeps(t, missing);
      assert forall l :: l in labels ==> l in t.ids || l in missing;
    }
  }

  lemma {:induction false} DeleteNodeRowKeeps(t: Tables, id: Option<nat>)
    requires WellFormed(t)
    ensures WellFormed(DeleteNodeRow(t, id))
  {
  }

  lemma {:induction false} InsertEdgesKeeps(t: Tables, pairs: set<(nat, nat)>, now: int)
    requires WellFormed(t) && forall e :: e in pairs ==> e.0 in t.labels && e.1 in t.labels
    ensures WellFormed(InsertEdges(t, pairs, now))
  {
  }

  lemma {:induction false} DeleteEdgeRowKeeps(t: Tables, from: Option<nat>, to: Option<nat>)
    requires WellFormed(t)
    ensures WellFormed(DeleteEdgeRow(t, from, to))
  {
  }

  lemma {:induction false} UpsertNodePropsKeeps(t: Tables, ids: set<nat>, props: map<string, Json>)
    requires WellFormed(t) && ids <= t.labels.Keys
    ensures WellFormed(UpsertNodeProps(t, ids, props))
  {
  }

  lemma {:induction false} UpsertEdgePropsKeeps(t: Tables, pairs: set<(nat, nat)>, name: string, value: Json)
    requires WellFormed(t)
    ensures WellFormed(OrFail(t, UpsertEdgeProps(t, pairs, name, value)).0)
  {
  }

  lemma {:induction false} UpsertEdgeRowsKeeps(t: Tables, pairs: set<(nat, nat)>, props: map<string, Json>)
    requires WellFormed(t)
    ensures WellFormed(OrFail(t, UpsertEdgeRows(t, pairs, props)).0)
  {
  }

  lemma {:induction false} InsertEdgeRowKeeps(t: Tables, from: Option<nat>, to: Option<nat>, now: int)
    requires WellFormed(t)
    ensures WellFormed(OrFail(t, InsertEdgeRow(t, from, to, now)).0)
  {
    if InsertEdgeRow(t, from, to, now).Ok? {
      InsertEdgesKeeps(t, {(from.value, to.value)}, now);
    }
  }

  lemma {:induction false} SetNodeValueKeeps(t: Tables, id: Option<nat>, name: string, value: Json)
    requires WellFormed(t)
    ensures WellFormed(OrFail(t, SetNodeValue(t, id, name, value)).0)
  {
    if SetNodeValue(t, id, name, value).Ok? {
      UpsertNodePropsKeeps(t, {id.value}, map[name := value]);
    }
  }

  lemma {:induction false} SetEdgeValueKeeps(t: Tables, from: Option<nat>, to: Option<nat>, name: string, value: Json)
    requires WellFormed(t)
    ensures WellFormed(OrFail(t, SetEdgeValue(t, from, to, name, value)).0)
  {
    if from.Some? && to.Some? {
      UpsertEdgePropsKeeps(t, {(from.value, to.value)}, name, value);
    }
  }

  // ---- deletion ----

  /** A node deleted and ensured again is a new node: a fresh id, none of the old
      edges and none of the old properties; everything else is as it was. */
  lemma {:induction false} DeletedNodeComesBackFresh(t: Tables, node: string)
    requires WellFormed(t) && node in t.ids
    ensures var gone := DeleteNodeRow(t, IdOf(t, node));
            var back := InsertNodes(gone, [node]);
            && back.Ok? && node in back.value.ids && back.value.ids[node] == t.nextId && t.nextId !in t.labels
            && (forall l :: l in t.ids && l != node ==> l in back.value.ids && back.value.ids[l] == t.ids[l])
            && (forall e :: e in back.value.edges <==> e in t.edges && e.0 != t.ids[node] && e.1 != t.ids[node])
            && (forall e :: e in back.value.edges ==> e.0 != t.nextId && e.1 != t.nextId)
            && (forall k :: k in back.value.nodeProps <==> k in t.nodeProps && k.0 != t.ids[node])
            && (forall k :: k in back.value.nodeProps ==> k.0 != t.nextId)
            && (forall k :: k in back.value.edgeProps <==> k in t.edgeProps && k.0.0 != t.ids[node] && k.0.1 != t.ids[node])
  {
    hide PlainRun, Plain;
    var gone := DeleteNodeRow(t, IdOf(t, node));
    assert node !in gone.ids;
    assert [node][1..] == [] && Unknown(gone, [node]) == [node];
    assert InsertRows(gone, [node]) == InsertRow(gone, node);
  }

  // ---- growth ----

  /** From `t` to `t'` nothing was taken away and new nodes got larger ids. */
  ghost predicate Later(t: Tables, t': Tables) {
    && t.nextId <= t'.nextId && t.edges.Keys <= t'.edges.Keys
    && (forall i :: i in t.labels ==> i in t'.labels)
    && (forall i :: i in t'.labels && i !in t.labels ==> t.nextId <= i)
  }

  predicate Deletes(op: Op) {
    op.DeleteNode? || op.DeleteEdge?
  }

  lemma {:induction false} InsertRowsLater(t: Tables, labels: seq<string>)
    ensures Later(t, InsertRows(t, labels)) && InsertRows(t, labels).edges == t.edges
    decreases |labels|
  {
    if labels != [] {
      InsertRowsLater(InsertRow(t, labels[0]), labels[1..]);
    }
  }

  lemma {:induction false} OpLater(t: Tables, op: Op, now: int)
    requires !Deletes(op)
    ensures Later(t, Plain(t, op, now).0)
  {
    hide Plain, Later;
    if OnNodes(op) {
      NodeOpLater(t, op, now);
    } else {
      EdgeOpLater(t, op, now);
    }
  }

  lemma {:induction false} EdgeOpLater(t: Tables, op: Op, now: int)
    requires !Deletes(op) && !OnNodes(op)
    ensures Later(t, Plain(t, op, now).0)
  {
    hide FirstNeighborOf, DeleteNodeRow, InsertNodes, Pairs, IdsOf, One, EdgeProps, FromEdgeValues, ToEdgeValues;
  }

  lemma {:induction false} NodeOpLater(t: Tables, op: Op, now: int)
    requires !Deletes(op) && OnNodes(op)
    ensures Later(t, Plain(t, op, now).0)
  {
    hide FirstNeighborOf, DeleteNodeRow, InsertEdges, IdsOf, One, NodeProps, NodeValues, NodeValue, InsertRows, UpsertEdgeProps,
         UpsertEdgeRows, SetEdgeValue, EdgeProps, EdgeValue, FromEdgeValues, ToEdgeValues, InsertEdgeRow, DeleteEdgeRow;
    match op
    case EnsureNode(l) => InsertRowsLater(t, Unknown(t, [l]));
    case EnsureNodes(ls) => InsertRowsLater(t, Unknown(t, ls));
    case _ =>
  }

  lemma {:induction false} RunLater(t: Tables, ops: seq<(Op, int)>)
    requires forall i :: 0 <= i < |ops| ==> !Deletes(ops[i].0)
    ensures Later(t, PlainRun(t, ops).0)
  {
    if ops != [] {
      hide Plain;
      var n := |ops| - 1;
      RunLater(t, ops[..n]);
      OpLater(PlainRun(t, ops[..n]).0, ops[n].0, ops[n].1);
    }
  }

  lemma {:induction false} PlainKeeps(t: Tables, op: Op, now: int)
    requires WellFormed(t)
    ensures WellFormed(Plain(t, op, now).0)
  {
    hide Plain, WellFormed;
    if OnNodes(op) {
      NodeOpKeeps(t, op, now);
    } else {
      EdgeOpKeeps(t, op, now);
    }
  }

  lemma {:induction false} NodeOpKeeps(t: Tables, op: Op, now: int)
    requires WellFormed(t) && OnNodes(op)
    ensures WellFormed(Plain(t, op, now).0)
  {
    hide FirstNeighborOf, NodesOk, LinksOk, UpsertNodeProps, DeleteNodeRow, NodeProps, NodeValues;
    match op
    case EnsureNode(l) => InsertNodesKeeps(t, [l]);
    case EnsureNodes(ls) => InsertNodesKeeps(t, ls);
    case DeleteNode(l) => DeleteNodeRowKeeps(t, IdOf(t, l));
    case SetNodeProperty(l, n, v) => SetNodeValueKeeps(t, IdOf(t, l), n, v);
    case SetNodesProperty(ls, n, v) => PairsKnown(t, ls, ls); UpsertNodePropsKeeps(t, IdsOf(t, ls), map[n := v]);
    case SetNodeProperties(l, props) => PairsKnown(t, [l], [l]); UpsertNodePropsKeeps(t, One(IdOf(t, l)), props);
    case _ =>
  }

  lemma {:induction false} EdgeOpKeeps(t: Tables, op: Op, now: int)
    requires WellFormed(t) && !OnNodes(op)
    ensures WellFormed(Plain(t, op, now).0)
  {
    hide FirstNeighborOf, NodesOk, LinksOk, InsertEdges, UpsertEdgeProps, UpsertEdgeRows, EdgeProps, FromEdgeValues, ToEdgeValues;
    match op
    case EnsureEdge(f, g) => InsertEdgeRowKeeps(t, IdOf(t, f), IdOf(t, g), now);
    case EnsureFromEdges(f, gs) => PairsKnown(t, [f], gs); InsertEdgesKeeps(t, Pairs(One(IdOf(t, f)), IdsOf(t, gs)), now);
    case EnsureToEdges(fs, g) => PairsKnown(t, fs, [g]); InsertEdgesKeeps(t, Pairs(IdsOf(t, fs), One(IdOf(t, g))), now);
    case DeleteEdge(f, g) => DeleteEdgeRowKeeps(t, IdOf(t, f), IdOf(t, g));
    case SetEdgeProperty(f, g, n, v) => SetEdgeValueKeeps(t, IdOf(t, f), IdOf(t, g), n, v);
    case SetEdgeProperties(f, g, props) => UpsertEdgeRowsKeeps(t, Pairs(One(IdOf(t, f)), One(IdOf(t, g))), props);
    case SetFromEdgesProperty(f, gs, n, v) => UpsertEdgePropsKeeps(t, Pairs(One(IdOf(t, f)), IdsOf(t, gs)), n, v);
    case SetToEdgesProperty(fs, g, n, v) => UpsertEdgePropsKeeps(t, Pairs(IdsOf(t, fs), One(IdOf(t, g))), n, v);
    case _ =>
  }

  lemma {:induction false} PairsKnown(t: Tables, froms: seq<string>, tos: seq<string>)
    requires WellFormed(t)
    ensures IdsOf(t, froms) <= t.labels.Keys && IdsOf(t, tos) <= t.labels.Keys
    ensures forall l :: l in froms ==> One(IdOf(t, l)) <= t.labels.Keys
    ensures forall l :: l in tos ==> One(IdOf(t, l)) <= t.labels.Keys
  {
  }

  lemma {:induction false} PlainRunKeeps(t: Tables, ops: seq<(Op, int)>)
    requires WellFormed(t)
    ensures WellFormed(PlainRun(t, ops).0)
  {
    if ops != [] {
      hide Plain, WellFormed;
      var n := |ops| - 1;
      PlainRunKeeps(t, ops[..n]);
      PlainKeeps(PlainRun(t, ops[..n]).0, ops[n].0, ops[n].1);
    }
  }
}
