/**
 The graph store with its two LRU caches (pub_crawler/database_graph.py).

 Each method is one call, taken as atomic. Its contract says that the tables and
 the answer are those of the store with no caches; `Run` says so for every
 sequence of calls.
 */
module CachedGraph {
  import opened Options
  import opened JsonValues
  import opened GraphTables

  /** A cache entry may leave at any time and never disagrees with the tables. */
  ghost predicate Agrees(t: Tables, cache: map<string, nat>, labelCache: map<nat, string>) {
    && (forall l :: l in cache ==> l in t.ids && t.ids[l] == cache[l])
    && (forall i :: i in labelCache ==> i in t.labels && t.labels[i] == labelCache[i])
  }

  function Uncached(labels: seq<string>, cache: map<string, nat>): seq<string> {
    if labels == [] then []
    else (if labels[0] in cache then [] else [labels[0]]) + Uncached(labels[1..], cache)
  }

  /** The cache filter hides from the insert only labels the insert would skip,
      so the same rows are inserted and the same ids drawn. */
  lemma {:induction false} CacheFilterIsInvisible(t: Tables, labels: seq<string>, cache: map<string, nat>)
    requires forall l :: l in cache ==> l in t.ids
    ensures Unknown(t, Uncached(labels, cache)) == Unknown(t, labels)
  {
    if labels != [] {
      var rest := Uncached(labels[1..], cache);
      CacheFilterIsInvisible(t, labels[1..], cache);
      if labels[0] in cache {
        assert Uncached(labels, cache) == rest;
      } else {
        assert Uncached(labels, cache)[1..] == rest;
      }
    }
  }

  class DatabaseGraph {
    var tables: Tables
    var cache: map<string, nat>
    var labelCache: map<nat, string>
    const capacity: nat

    ghost predicate Valid()
      reads this
    {
      && WellFormed(tables)
      && 1 <= capacity && |cache| <= capacity && |labelCache| <= capacity
      && Agrees(tables, cache, labelCache)
    }

    constructor (stored: Tables, max_cache_size: nat)
      requires WellFormed(stored) && 1 <= max_cache_size
      ensures Valid() && tables == stored && capacity == max_cache_size
    {
      tables, cache, labelCache, capacity := stored, map[], map[], max_cache_size;
    }

    // ---- cached lookups ----

    /** Room for one more entry: when the cache is full some entry is dropped,
        least recently used or not. */
    static method Evict<K, V>(entries: map<K, V>, limit: nat) returns (kept: map<K, V>)
      requires 1 <= limit && |entries| <= limit
      ensures |kept| < limit && kept.Keys <= entries.Keys
      ensures forall k :: k in kept ==> kept[k] == entries[k]
    {
      kept := entries;
      if |entries| == limit {
        var victim :| victim in entries;
        kept := entries - {victim};
        assert kept.Keys == entries.Keys - {victim};
      }
    }

    method NodeId(node: string) returns (id: Option<nat>)
      requires Valid()
      modifies this`cache
      ensures Valid() && id == IdOf(tables, node)
    {
      if node in cache {
        return Some(cache[node]);
      }
      id := IdOf(tables, node);
      if id.Some? {
        var kept := Evict(cache, capacity);
        cache := kept[node := id.value];
        assert cache.Keys == kept.Keys + {node};
      }
    }

    method NodeLabel(id: nat) returns (node: Option<string>)
      requires Valid()
      modifies this`labelCache
      ensures Valid() && node == LabelOf(tables, id)
    {
      if id in labelCache {
        return Some(labelCache[id]);
      }
      node := LabelOf(tables, id);
      if node.Some? {
        var kept := Evict(labelCache, capacity);
        labelCache := kept[id := node.value];
        assert labelCache.Keys == kept.Keys + {id};
      }
    }

    // ---- nodes ----

    method EnsureNode(node: string) returns (answer: Answer)
      requires Valid()
      modifies this`tables
      ensures Valid() && (tables, answer) == OrFail(old(tables), InsertNodes(old(tables), [node]))
    {
      InsertNodesKeeps(tables, [node]);
      if node in cache {
        assert Unknown(tables, [node]) == [];
        return Done;
      }
      var r := InsertNodes(tables, [node]);
      if r.Raised? {
        return Failed;
      }
      tables := r.value;
      answer := Done;
    }

    method EnsureNodes(labels: seq<string>) returns (answer: Answer)
      requires Valid()
      modifies this`tables
      ensures Valid() && (tables, answer) == OrFail(old(tables), InsertNodes(old(tables), labels))
    {
      CacheFilterIsInvisible(tables, labels, cache);
      InsertNodesKeeps(tables, labels);
      var to_upsert := Uncached(labels, cache);
      if to_upsert == [] {
        return Done;
      }
      var r := InsertNodes(tables, to_upsert);
      if r.Raised? {
        return Failed;
      }
      tables := r.value;
      answer := Done;
    }

    method HasNode(node: string) returns (answer: Answer)
      requires Valid()
      modifies this`cache
      ensures Valid() && (tables, answer) == (old(tables), Truth(IdOf(old(tables), node).Some?))
    {
      var id := NodeId(node);
      answer := Truth(id.Some?);
    }

    /** Deletes by the cached id and forgets both cache entries. */
    method DeleteNode(node: string) returns (answer: Answer)
      requires Valid()
      modifies this
      ensures Valid() && (tables, answer) == (DeleteNodeRow(old(tables), IdOf(old(tables), node)), Done)
    {
      var id := NodeId(node);
      DeleteNodeRowKeeps(tables, id);
      tables := DeleteNodeRow(tables, id);
      if node in cache {
        cache := cache - {node};
      }
      if id.Some? && id.value in labelCache {
        labelCache := labelCache - {id.value};
      }
      answer := Done;
    }

    method SetNodeProperty(node: string, name: string, value: Json) returns (answer: Answer)
      requires Valid()
      modifies this`tables, this`cache
      ensures Valid() && (tables, answer) == OrFail(old(tables), SetNodeValue(old(tables), IdOf(old(tables), node), name, value))
    {
      SetNodeValueKeeps(tables, IdOf(tables, node), name, value);
      var id := NodeId(node);
      var r := SetNodeValue(tables, id, name, value);
      if r.Raised? {
        return Failed;
      }
      tables := r.value;
      answer := Done;
    }

    method SetNodesProperty(labels: seq<string>, name: string, value: Json) returns (answer: Answer)
      requires Valid()
      modifies this`tables
      ensures Valid() && (tables, answer) == (UpsertNodeProps(old(tables), IdsOf(old(tables), labels), map[name := value]), Done)
    {
      UpsertNodePropsKeeps(tables, IdsOf(tables, labels), map[name := value]);
      tables := UpsertNodeProps(tables, IdsOf(tables, labels), map[name := value]);
      answer := Done;
    }

    method SetNodeProperties(node: string, props: map<string, Json>) returns (answer: Answer)
      requires Valid()
      modifies this`tables
      ensures Valid() && (tables, answer) == (UpsertNodeProps(old(tables), One(IdOf(old(tables), node)), props), Done)
    {
      UpsertNodePropsKeeps(tables, One(IdOf(tables, node)), props);
      tables := UpsertNodeProps(tables, One(IdOf(tables, node)), props);
      answer := Done;
    }

    method GetNodeProperty(node: string, name: string) returns (answer: Answer)
      requires Valid()
      modifies this`cache
      ensures Valid() && (tables, answer) == (old(tables), Value(NodeValue(old(tables), IdOf(old(tables), node), name)))
    {
      var id := NodeId(node);
      answer := Value(NodeValue(tables, id, name));
    }

    /** The labels asked that have the property, each with its value: what the single
        reads would answer, but a stored null is kept as a key. */
    method GetNodesProperty(labels: seq<string>, name: string) returns (answer: Answer)
      requires Valid()
      ensures answer == Values(NodeValues(tables, labels, name))
      ensures forall l :: l in answer.vs <==> l in labels && NodeRow(tables, IdOf(tables, l), name).Some?
      ensures forall l :: l in labels ==>
                NodeValue(tables, IdOf(tables, l), name) == if l in answer.vs then Loaded(Some(answer.vs[l])) else None
    {
      hide WellFormed, Agrees, EdgeRow;
      var rows := set l | l in labels && l in tables.ids && (tables.ids[l], name) in tables.nodeProps;
      var props: map<string, Json> := map[];
      ghost var all := rows;
      while rows != {}
        invariant rows <= all && props.Keys == all - rows
        invariant forall l :: l in props ==> props[l] == tables.nodeProps[(tables.ids[l], name)]
        decreases |rows|
      {
        var row :| row in rows;
        props, rows := props[row := tables.nodeProps[(tables.ids[row], name)]], rows - {row};
      }
      assert props == NodeValues(tables, labels, name);
      answer := Values(props);
    }

    // ---- edges ----

    method EnsureEdge(from: string, to: string, now: int) returns (answer: Answer)
      requires Valid()
      modifies this`tables, this`cache
      ensures Valid() && (tables, answer) == OrFail(old(tables), InsertEdgeRow(old(tables), IdOf(old(tables), from), IdOf(old(tables), to), now))
    {
      InsertEdgeRowKeeps(tables, IdOf(tables, from), IdOf(tables, to), now);
      var f := NodeId(from);
      var g := NodeId(to);
      var r := InsertEdgeRow(tables, f, g, now);
      if r.Raised? {
        return Failed;
      }
      tables := r.value;
      answer := Done;
    }

    method EnsureFromEdges(from: string, tos: seq<string>, now: int) returns (answer: Answer)
      requires Valid()
      modifies this`tables
      ensures Valid() && (tables, answer) == (InsertEdges(old(tables), Pairs(One(IdOf(old(tables), from)), IdsOf(old(tables), tos)), now), Done)
    {
      InsertEdgesKeeps(tables, Pairs(One(IdOf(tables, from)), IdsOf(tables, tos)), now);
      tables := InsertEdges(tables, Pairs(One(IdOf(tables, from)), IdsOf(tables, tos)), now);
      answer := Done;
    }

    method EnsureToEdges(froms: seq<string>, to: string, now: int) returns (answer: Answer)
      requires Valid()
      modifies this`tables
      ensures Valid() && (tables, answer) == (InsertEdges(old(tables), Pairs(IdsOf(old(tables), froms), One(IdOf(old(tables), to))), now), Done)
    {
      InsertEdgesKeeps(tables, Pairs(IdsOf(tables, froms), One(IdOf(tables, to))), now);
      tables := InsertEdges(tables, Pairs(IdsOf(tables, froms), One(IdOf(tables, to))), now);
      answer := Done;
    }

    method HasEdge(from: string, to: string) returns (answer: Answer)
      requires Valid()
      modifies this`cache
      ensures Valid() && (tables, answer) == (old(tables), Truth(IsEdge(old(tables), IdOf(old(tables), from), IdOf(old(tables), to))))
    {
      var f := NodeId(from);
      var g := NodeId(to);
      answer := Truth(IsEdge(tables, f, g));
    }

    method DeleteEdge(from: string, to: string) returns (answer: Answer)
      requires Valid()
      modifies this`tables, this`cache
      ensures Valid() && (tables, answer) == (DeleteEdgeRow(old(tables), IdOf(old(tables), from), IdOf(old(tables), to)), Done)
    {
      DeleteEdgeRowKeeps(tables, IdOf(tables, from), IdOf(tables, to));
      var f := NodeId(from);
      var g := NodeId(to);
      tables := DeleteEdgeRow(tables, f, g);
      answer := Done;
    }

    method SetEdgeProperty(from: string, to: string, name: string, value: Json) returns (answer: Answer)
      requires Valid()
      modifies this`tables, this`cache
      ensures Valid() && (tables, answer) == OrFail(old(tables), SetEdgeValue(old(tables), IdOf(old(tables), from), IdOf(old(tables), to), name, value))
    {
      SetEdgeValueKeeps(tables, IdOf(tables, from), IdOf(tables, to), name, value);
      var f := NodeId(from);
      var g := NodeId(to);
      var r := SetEdgeValue(tables, f, g, name, value);
      if r.Raised? {
        return Failed;
      }
      tables := r.value;
      answer := Done;
    }

    method SetFromEdgesProperty(from: string, tos: seq<string>, name: string, value: Json) returns (answer: Answer)
      requires Valid()
      modifies this`tables
      ensures Valid() && (tables, answer) == OrFail(old(tables), UpsertEdgeProps(old(tables), Pairs(One(IdOf(old(tables), from)), IdsOf(old(tables), tos)), name, value))
    {
      UpsertEdgePropsKeeps(tables, Pairs(One(IdOf(tables, from)), IdsOf(tables, tos)), name, value);
      var r := UpsertEdgeProps(tables, Pairs(One(IdOf(tables, from)), IdsOf(tables, tos)), name, value);
      if r.Raised? {
        return Failed;
      }
      tables := r.value;
      answer := Done;
    }

    method SetToEdgesProperty(froms: seq<string>, to: string, name: string, value: Json) returns (answer: Answer)
      requires Valid()
      modifies this`tables
      ensures Valid() && (tables, answer) == OrFail(old(tables), UpsertEdgeProps(old(tables), Pairs(IdsOf(old(tables), froms), One(IdOf(old(tables), to))), name, value))
    {
      UpsertEdgePropsKeeps(tables, Pairs(IdsOf(tables, froms), One(IdOf(tables, to))), name, value);
      var r := UpsertEdgeProps(tables, Pairs(IdsOf(tables, froms), One(IdOf(tables, to))), name, value);
      if r.Raised? {
        return Failed;
      }
      tables := r.value;
      answer := Done;
    }

    method GetEdgeProperty(from: string, to: string, name: string) returns (answer: Answer)
      requires Valid()
      modifies this`cache
      ensures Valid() && (tables, answer) == (old(tables), Value(EdgeValue(old(tables), IdOf(old(tables), from), IdOf(old(tables), to), name)))
    {
      var f := NodeId(from);
      var g := NodeId(to);
      answer := Value(EdgeValue(tables, f, g, name));
    }

    method SetEdgeProperties(from: string, to: string, props: map<string, Json>) returns (answer: Answer)
      requires Valid()
      modifies this`tables
      ensures Valid() && (tables, answer) == OrFail(old(tables), UpsertEdgeRows(old(tables), Pairs(One(IdOf(old(tables), from)), One(IdOf(old(tables), to))), props))
    {
      UpsertEdgeRowsKeeps(tables, Pairs(One(IdOf(tables, from)), One(IdOf(tables, to))), props);
      var r := UpsertEdgeRows(tables, Pairs(One(IdOf(tables, from)), One(IdOf(tables, to))), props);
      if r.Raised? {
        return Failed;
      }
      tables := r.value;
      answer := Done;
    }

    /** One entry for each property of the node, which the single reads answer likewise. */
    method GetNodeProperties(node: string) returns (answer: Answer)
      requires Valid()
      modifies this`cache
      ensures Valid() && (tables, answer) == (old(tables), Values(NodeProps(old(tables), IdOf(old(tables), node))))
      ensures forall n :: NodeValue(tables, IdOf(tables, node), n) == if n in answer.vs then Loaded(Some(answer.vs[n])) else None
    {
      hide WellFormed, Agrees, NodeRow;
      var id := NodeId(node);
      var rows := NodeNames(tables, id);
      var props: map<string, Json> := map[];
      ghost var all := rows;
      while rows != {}
        invariant rows <= all && props.Keys == all - rows
        invariant forall n :: n in props ==> NodeRow(tables, id, n) == Some(props[n])
        decreases |rows|
      {
        var row :| row in rows;
        props, rows := props[row := NodeRow(tables, id, row).value], rows - {row};
      }
      assert props == NodeProps(tables, id);
      answer := Values(props);
    }

    method GetEdgeProperties(from: string, to: string) returns (answer: Answer)
      requires Valid()
      modifies this`cache
      ensures Valid() && (tables, answer) == (old(tables), Values(EdgeProps(old(tables), IdOf(old(tables), from), IdOf(old(tables), to))))
      ensures forall n :: EdgeValue(tables, IdOf(tables, from), IdOf(tables, to), n) ==
                if n in answer.vs then Loaded(Some(answer.vs[n])) else None
    {
      hide WellFormed, Agrees, EdgeRow;
      var f := NodeId(from);
      var g := NodeId(to);
      var rows := EdgeNames(tables, f, g);
      var props: map<string, Json> := map[];
      ghost var all := rows;
      while rows != {}
        invariant rows <= all && props.Keys == all - rows
        invariant forall n :: n in props ==> EdgeRow(tables, f, g, n) == Some(props[n])
        decreases |rows|
      {
        var row :| row in rows;
        props, rows := props[row := EdgeRow(tables, f, g, row).value], rows - {row};
      }
      assert props == EdgeProps(tables, f, g);
      answer := Values(props);
    }

    /** One entry for each of the edges that has the property, as read one by one. */
    method GetFromEdgesProperty(from: string, tos: seq<string>, name: string) returns (answer: Answer)
      requires Valid()
      ensures answer == Values(FromEdgeValues(tables, from, tos, name))
      ensures forall l :: l in tos ==>
                EdgeValue(tables, IdOf(tables, from), IdOf(tables, l), name) == if l in answer.vs then Loaded(Some(answer.vs[l])) else None
    {
      hide WellFormed, Agrees, EdgeRow;
      var rows := set l | l in tos && EdgeRow(tables, IdOf(tables, from), IdOf(tables, l), name).Some?;
      var props: map<string, Json> := map[];
      ghost var all := rows;
      while rows != {}
        invariant rows <= all && props.Keys == all - rows
        invariant forall l :: l in props ==> EdgeRow(tables, IdOf(tables, from), IdOf(tables, l), name) == Some(props[l])
        decreases |rows|
      {
        var row :| row in rows;
        props, rows := props[row := EdgeRow(tables, IdOf(tables, from), IdOf(tables, row), name).value], rows - {row};
      }
      assert props == FromEdgeValues(tables, from, tos, name);
      answer := Values(props);
    }

    method GetToEdgesProperty(froms: seq<string>, to: string, name: string) returns (answer: Answer)
      requires Valid()
      ensures answer == Values(ToEdgeValues(tables, froms, to, name))
      ensures forall l :: l in froms ==>
                EdgeValue(tables, IdOf(tables, l), IdOf(tables, to), name) == if l in answer.vs then Loaded(Some(answer.vs[l])) else None
    {
      hide WellFormed, Agrees, EdgeRow;
      var rows := set l | l in froms && EdgeRow(tables, IdOf(tables, l), IdOf(tables, to), name).Some?;
      var props: map<string, Json> := map[];
      ghost var all := rows;
      while rows != {}
        invariant rows <= all && props.Keys == all - rows
        invariant forall l :: l in props ==> EdgeRow(tables, IdOf(tables, l), IdOf(tables, to), name) == Some(props[l])
        decreases |rows|
      {
        var row :| row in rows;
        props, rows := props[row := EdgeRow(tables, IdOf(tables, row), IdOf(tables, to), name).value], rows - {row};
      }
      assert props == ToEdgeValues(tables, froms, to, name);
      answer := Values(props);
    }

    /** ORDER BY created_at, from_node, to_node LIMIT 1; the label comes from the
        second cache. */
    method FirstNeighbor(node: string) returns (answer: Answer)
      requires Valid()
      modifies this`cache, this`labelCache
      ensures Valid() && (tables, answer) == (old(tables), Neighbor(FirstNeighborOf(old(tables), IdOf(old(tables), node))))
    {
      var id := NodeId(node);
      if id.None? || Incident(tables, id.value) == {} {
        return Neighbor(None);
      }
      var among := Incident(tables, id.value);
      FirstEdgeExists(tables, among);
      var row: (nat, nat) :| row in among && IsFirstEdge(tables, row, among);
      forall e | IsFirstEdge(tables, e, among) ensures e == row {
        FirstEdgeUnique(tables, e, row, among);
      }
      var other := NodeLabel(if row.0 == id.value then row.1 else row.0);
      answer := Neighbor(other);
    }

    // ---- whole runs ----

    method Call(op: Op, now: int) returns (answer: Answer)
      requires Valid()
      modifies this
      ensures Valid() && (tables, answer) == Plain(old(tables), op, now)
    {
      hide WellFormed, Agrees, Plain;
      if OnNodes(op) {
        answer := CallNodes(op, now);
      } else {
        answer := CallEdges(op, now);
      }
    }

    method CallNodes(op: Op, now: int) returns (answer: Answer)
      requires Valid() && OnNodes(op)
      modifies this
      ensures Valid() && (tables, answer) == Plain(old(tables), op, now)
    {
      hide WellFormed, Agrees, FirstNeighborOf, InsertNodes, DeleteNodeRow, UpsertNodeProps, InsertEdges, IsEdge;
      match op
      case EnsureNode(l) => answer := EnsureNode(l);
      case EnsureNodes(ls) => answer := EnsureNodes(ls);
      case HasNode(l) => answer := HasNode(l);
      case DeleteNode(l) => answer := DeleteNode(l);
      case SetNodeProperty(l, n, v) => answer := SetNodeProperty(l, n, v);
      case SetNodesProperty(ls, n, v) => answer := SetNodesProperty(ls, n, v);
      case SetNodeProperties(l, props) => answer := SetNodeProperties(l, props);
      case GetNodeProperty(l, n) => answer := GetNodeProperty(l, n);
      case GetNodesProperty(ls, n) => answer := GetNodesProperty(ls, n);
      case GetNodeProperties(l) => answer := GetNodeProperties(l);
    }

    method CallEdges(op: Op, now: int) returns (answer: Answer)
      requires Valid() && !OnNodes(op)
      modifies this
      ensures Valid() && (tables, answer) == Plain(old(tables), op, now)
    {
      hide WellFormed, Agrees, FirstNeighborOf, InsertNodes, DeleteNodeRow, UpsertNodeProps, InsertEdges, IsEdge;
      match op
      case EnsureEdge(f, g) => answer := EnsureEdge(f, g, now);
      case EnsureFromEdges(f, gs) => answer := EnsureFromEdges(f, gs, now);
      case EnsureToEdges(fs, g) => answer := EnsureToEdges(fs, g, now);
      case HasEdge(f, g) => answer := HasEdge(f, g);
      case DeleteEdge(f, g) => answer := DeleteEdge(f, g);
      case SetEdgeProperty(f, g, n, v) => answer := SetEdgeProperty(f, g, n, v);
      case SetEdgeProperties(f, g, props) => answer := SetEdgeProperties(f, g, props);
      case SetFromEdgesProperty(f, gs, n, v) => answer := SetFromEdgesProperty(f, gs, n, v);
      case SetToEdgesProperty(fs, g, n, v) => answer := SetToEdgesProperty(fs, g, n, v);
      case GetEdgeProperty(f, g, n) => answer := GetEdgeProperty(f, g, n);
      case GetEdgeProperties(f, g) => answer := GetEdgeProperties(f, g);
      case GetFromEdgesProperty(f, gs, n) => answer := GetFromEdgesProperty(f, gs, n);
      case GetToEdgesProperty(fs, g, n) => answer := GetToEdgesProperty(fs, g, n);
      case FirstNeighbor(l) => answer := FirstNeighbor(l);
    }

    /** Any sequence of calls, any capacity, any evictions: the answers and the
        tables are those of the store with no caches. */
    method Run(ops: seq<(Op, int)>) returns (answers: seq<Answer>)
      requires Valid()
      modifies this
      ensures Valid() && (tables, answers) == PlainRun(old(tables), ops)
    {
      hide Plain, WellFormed, Agrees;
      answers := [];
      for i := 0 to |ops|
        invariant Valid() && (tables, answers) == PlainRun(old(tables), ops[..i])
      {
        assert ops[..i + 1][..i] == ops[..i];
        var answer := Call(ops[i].0, ops[i].1);
        answers := answers + [answer];
      }
      assert ops[..|ops|] == ops;
    }
  }
}
