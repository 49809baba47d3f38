/**
 Node and edge files of the graph (bin/snapshot.py): two passes over a graph that
 may grow in between, written column by column in batches.
 */
module Snapshots {
  import opened Options
  import opened JsonValues
  import opened Jobs
  import opened GraphTables
  import opened Handling

  const MAX_INT32: int := 0x7fff_ffff

  const INT_PROPS := ["followers_count", "following_count", "depth"]
  const BOOLEAN_PROPS := ["followers_pages_complete", "following_pages_complete", "followers_members_shared", "following_members_shared"]
  const OTHER_PROPS := ["hostname", "preferred_username", "name", "type", "summary", "properties"]

  datatype Node = Node(id: int, name: string, props: map<string, Json>)

  /** `datetime.fromisoformat` and `int` of a string; `None` when they raise. */
  datatype Readers = Readers(time: Json -> Option<Json>, number: string -> Option<int>)

  /** The cell of a node in a column. */
  function CellOf(n: Node, column: string, read: Readers): Json {
    if column == "id" then Int(n.id)
    else if column == "label" then Str(n.name)
    else if column == "published" then
      if "published" in n.props && read.time(n.props["published"]).Some? then read.time(n.props["published"]).value else Null
    else if column in INT_PROPS then IntCell(n.props, column, read)
    else if column in BOOLEAN_PROPS then
      if column in n.props && n.props[column].Bool? then n.props[column] else Null
    else if column in n.props then n.props[column] else Null
  }

  /** The integer Python takes a value for; a boolean is 0 or 1, a string what `int` reads. */
  function AsInt(value: Json, read: Readers): Option<int> {
    match value
    case Int(n) => Some(n)
    case Bool(b) => Some(if b then 1 else 0)
    case Str(s) => read.number(s)
    case _ => None
  }

  predicate InRange32(n: Option<int>) {
    n.Some? && 0 <= n.value <= MAX_INT32
  }

  /** The value's own number where it fits 32 bits, otherwise nothing. */
  function IntCell(props: map<string, Json>, column: string, read: Readers): (cell: Json)
    ensures var n := if column in props then AsInt(props[column], read) else None;
            if InRange32(n) then AsInt(cell, read) == n && (cell.Int? || cell == props[column]) else cell == Null
  {
    if column !in props then Null
    else match props[column]
      case Int(n) => if 0 <= n <= MAX_INT32 then Int(n) else Null
      case Bool(b) => Bool(b)
      case Str(s) =>
        (match read.number(s)
         case Some(n) => if 0 <= n <= MAX_INT32 then Int(n) else Null
         case None => Null)
      case _ => Null
  }

  function Columns(): (columns: seq<string>)
    ensures "id" in columns
  {
    ["id", "label", "published"] + INT_PROPS + BOOLEAN_PROPS + OTHER_PROPS
  }

  /** The file has these columns, and reading a row tells what the node had. */
  lemma {:induction false} CellsTell(n: Node, column: string, read: Readers)
    ensures column in Columns() <==> column in [
              "id", "label", "hostname", "preferred_username", "name", "published", "type", "followers_count", "following_count",
              "depth", "followers_pages_complete", "following_pages_complete", "followers_members_shared",
              "following_members_shared", "summary", "properties"]
    ensures CellOf(n, "id", read) == Int(n.id) && CellOf(n, "label", read) == Str(n.name)
    ensures column in ["hostname", "preferred_username", "name", "type", "summary", "properties"] ==>
              if column in n.props then CellOf(n, column, read) == n.props[column] else CellOf(n, column, read) == Null
    ensures column in ["followers_pages_complete", "following_pages_complete", "followers_members_shared", "following_members_shared"] ==>
              forall b :: CellOf(n, column, read) == Bool(b) <==> column in n.props && n.props[column] == Bool(b)
    ensures column in ["followers_pages_complete", "following_pages_complete", "followers_members_shared", "following_members_shared"] ==>
              CellOf(n, column, read).Bool? || CellOf(n, column, read) == Null
    ensures column in ["followers_count", "following_count", "depth"] ==>
              forall i: int :: CellOf(n, column, read) == Int(i) ==> column in n.props && AsInt(n.props[column], read) == Some(i) && 0 <= i < 0x8000_0000
    ensures column in ["followers_count", "following_count", "depth"] && column in n.props ==>
              forall i: int :: AsInt(n.props[column], read) == Some(i) && 0 <= i < 0x8000_0000 ==> AsInt(CellOf(n, column, read), read) == Some(i)
    ensures "published" !in n.props || read.time(n.props["published"]) == None ==> CellOf(n, "published", read) == Null
    ensures "published" in n.props && read.time(n.props["published"]).Some? ==>
              CellOf(n, "published", read) == read.time(n.props["published"]).value
  {
    assert forall c :: c in Columns() <==> c in ["id", "label", "published"] || c in INT_PROPS || c in BOOLEAN_PROPS || c in OTHER_PROPS;
  }

  /** The columns that come from the crawl are those its handlers write. */
  lemma {:induction false} ColumnsAreWritten(d: Direction)
    ensures Key(d, "count") in INT_PROPS && Key(d, "pages_complete") in BOOLEAN_PROPS && Key(d, "members_shared") in BOOLEAN_PROPS
  {
    hide Key;
    KeyReads(d, "count");
    KeyReads(d, "pages_complete");
    KeyReads(d, "members_shared");
    match d
    case Followers =>
      assert "followers_" + "count" == INT_PROPS[0];
      assert "followers_" + "pages_complete" == BOOLEAN_PROPS[0];
      assert "followers_" + "members_shared" == BOOLEAN_PROPS[2];
    case Following =>
      assert "following_" + "count" == INT_PROPS[1];
      assert "following_" + "pages_complete" == BOOLEAN_PROPS[1];
      assert "following_" + "members_shared" == BOOLEAN_PROPS[3];
  }

  lemma {:induction false} KeyReads(d: Direction, what: string)
    ensures Key(d, what) == (if d == Followers then "followers_" else "following_") + what
  {
    assert "followers" + "_" == "followers_" && "following" + "_" == "following_";
  }

  type Batch = map<string, seq<Json>>

  /** The column of some nodes. */
  function ColumnOf(nodes: seq<Node>, column: string, read: Readers): seq<Json> {
    seq(|nodes|, i requires 0 <= i < |nodes| => CellOf(nodes[i], column, read))
  }

  /** Every column holds one cell for each of the nodes, in order. */
  ghost predicate Holds(batch: Batch, nodes: seq<Node>, read: Readers) {
    forall c :: c in Columns() ==> c in batch && batch[c] == ColumnOf(nodes, c, read)
  }

  /** All columns of a written batch are of one length. */
  ghost predicate Rectangular(batch: Batch, rows: nat) {
    forall c :: c in Columns() ==> c in batch && |batch[c]| == rows
  }

  /** The column over the whole file. */
  function Whole(file: seq<Batch>, column: string): seq<Json>
    requires forall b :: b in file ==> column in b
  {
    if file == [] then [] else Whole(file[..|file| - 1], column) + file[|file| - 1][column]
  }

  ghost predicate Written(file: seq<Batch>, nodes: seq<Node>, read: Readers) {
    && (forall b, c :: b in file && c in Columns() ==> c in b)
    && forall c :: c in Columns() ==> Whole(file, c) == ColumnOf(nodes, c, read)
  }

  function NoRows(): Batch {
    map c | c in Columns() :: []
  }

  method AppendRow(batch: Batch, n: Node, read: Readers, ghost nodes: seq<Node>) returns (next: Batch)
    requires Holds(batch, nodes, read)
    ensures Holds(next, nodes + [n], read)
  {
    next := map c | c in Columns() :: batch[c] + [CellOf(n, c, read)];
    forall c | c in Columns() ensures next[c] == ColumnOf(nodes + [n], c, read) {
      assert ColumnOf(nodes + [n], c, read) == ColumnOf(nodes, c, read) + [CellOf(n, c, read)];
    }
  }

  lemma {:induction false} WriteBatch(file: seq<Batch>, batch: Batch, before: seq<Node>, nodes: seq<Node>, read: Readers)
    requires Written(file, before, read) && Holds(batch, nodes, read)
    ensures Written(file + [batch], before + nodes, read)
  {
    hide CellOf, Columns;
    forall c | c in Columns() ensures Whole(file + [batch], c) == ColumnOf(before + nodes, c, read) {
      assert (file + [batch])[..|file|] == file;
      assert ColumnOf(before + nodes, c, read) == ColumnOf(before, c, read) + ColumnOf(nodes, c, read);
    }
  }

  function Max(a: int, b: int): int {
    if a < b then b else a
  }

  /** The largest id, or -1. */
  function MaxId(nodes: seq<Node>): (m: int)
    ensures forall n :: n in nodes ==> n.id <= m
    ensures m == -1 || exists n :: n in nodes && n.id == m
  {
    if nodes == [] then -1
    else
      var last := nodes[|nodes| - 1];
      assert last in nodes;
      Max(last.id, MaxId(nodes[..|nodes| - 1]))
  }

  /** Batches of one row to `size` rows. */
  ghost predicate InBatches(file: seq<Batch>, size: int) {
    forall b :: b in file ==> exists rows: nat :: Rectangular(b, rows) && 0 < rows <= Max(size, 1)
  }

  lemma {:induction false} Started(read: Readers)
    ensures Written([], [], read) && Holds(NoRows(), [], read)
  {
  }

  lemma {:induction false} RowCount(batch: Batch, nodes: seq<Node>, read: Readers)
    requires Holds(batch, nodes, read)
    ensures "id" in batch && |batch["id"]| == |nodes| && Rectangular(batch, |nodes|)
  {
    hide CellOf;
  }

  lemma {:induction false} OneMoreBatch(file: seq<Batch>, batch: Batch, rows: nat, size: int)
    requires InBatches(file, size) && Rectangular(batch, rows) && 0 < rows <= Max(size, 1)
    ensures InBatches(file + [batch], size)
  {
    hide Rectangular;
  }

  /** The node file holds every node once, in order, in rectangular batches. */
  method SnapshotNodes(nodes: seq<Node>, read: Readers, size: int) returns (file: seq<Batch>, maxId: int)
    ensures Written(file, nodes, read) && InBatches(file, size) && maxId == MaxId(nodes)
  {
    hide CellOf, Written, Holds, InBatches, Rectangular, Whole, ColumnOf, Columns, NoRows, MaxId;
    file, maxId := [], -1;
    var batch := NoRows();
    ghost var done: seq<Node>, open: seq<Node> := [], [];
    Started(read);
    OneMoreBatches(size);
    NoId();
    for i := 0 to |nodes|
      invariant done + open == nodes[..i] && maxId == MaxId(nodes[..i]) && |open| < Max(size, 1)
      invariant Written(file, done, read) && Holds(batch, open, read) && InBatches(file, size)
    {
      IdMore(nodes, i);
      maxId := Max(nodes[i].id, maxId);
      batch := AppendRow(batch, nodes[i], read, open);
      open := open + [nodes[i]];
      assert done + open == nodes[..i + 1];
      RowCount(batch, open, read);
      if |batch["id"]| >= size {
        WriteBatch(file, batch, done, open, read);
        OneMoreBatch(file, batch, |open|, size);
        file, batch := file + [batch], NoRows();
        done, open := done + open, [];
        Started(read);
      }
    }
    assert nodes[..|nodes|] == nodes;
    RowCount(batch, open, read);
    if |batch["id"]| > 0 {
      WriteBatch(file, batch, done, open, read);
      OneMoreBatch(file, batch, |open|, size);
      file := file + [batch];
    } else {
      assert done + open == done;
    }
  }

  lemma {:induction false} NoId()
    ensures MaxId([]) == -1
  {
  }

  lemma {:induction false} IdMore(nodes: seq<Node>, i: nat)
    requires i < |nodes|
    ensures MaxId(nodes[..i + 1]) == Max(nodes[i].id, MaxId(nodes[..i]))
  {
    assert nodes[..i + 1][..i] == nodes[..i];
  }

  lemma {:induction false} OneMoreBatches(size: int)
    ensures InBatches([], size)
  {
  }

  // ---- edges ----

  type Edge = (int, int)

  /** The edges at or below the cutoff, in order. */
  function Within(edges: seq<Edge>, maxId: int): seq<Edge> {
    if edges == [] then []
    else
      var e := edges[|edges| - 1];
      Within(edges[..|edges| - 1], maxId) + if e.0 > maxId || e.1 > maxId then [] else [e]
  }

  /** A batch of the edge file: its two columns. */
  datatype EdgeBatch = EdgeBatch(from: seq<int>, to: seq<int>)

  function Rows(file: seq<EdgeBatch>): seq<Edge>
    requires forall b :: b in file ==> |b.from| == |b.to|
  {
    if file == [] then [] else Rows(file[..|file| - 1]) + Zip(file[|file| - 1])
  }

  function Zip(b: EdgeBatch): seq<Edge>
    requires |b.from| == |b.to|
  {
    seq(|b.from|, i requires 0 <= i < |b.from| => (b.from[i], b.to[i]))
  }

  /** The edge file is the edges within the cutoff, in order. */
  method SnapshotEdges(edges: seq<Edge>, maxId: int, size: int) returns (file: seq<EdgeBatch>)
    ensures forall b :: b in file ==> |b.from| == |b.to| && 0 < |b.from| <= Max(size, 1)
    ensures Rows(file) == Within(edges, maxId)
  {
    file := [];
    var batch := EdgeBatch([], []);
    for i := 0 to |edges|
      invariant forall b :: b in file ==> |b.from| == |b.to| && 0 < |b.from| <= Max(size, 1)
      invariant |batch.from| == |batch.to| < Max(size, 1)
      invariant Rows(file) + Zip(batch) == Within(edges[..i], maxId)
    {
      assert edges[..i + 1][..i] == edges[..i];
      var (from, to) := edges[i];
      if from > maxId || to > maxId {
        continue;
      }
      ghost var before := Zip(batch);
      batch := EdgeBatch(batch.from + [from], batch.to + [to]);
      assert Zip(batch) == before + [(from, to)];
      assert Rows(file) + Zip(batch) == Rows(file) + before + [(from, to)];
      if |batch.from| >= size {
        assert (file + [batch])[..|file|] == file;
        assert Rows(file + [batch]) == Rows(file) + Zip(batch);
        file, batch := file + [batch], EdgeBatch([], []);
        assert Rows(file) + Zip(batch) == Rows(file);
      }
    }
    assert edges[..|edges|] == edges;
    if |batch.from| > 0 {
      assert (file + [batch])[..|file|] == file;
      file := file + [batch];
    } else {
      assert Rows(file) + Zip(batch) == Rows(file);
    }
  }

  // ---- the two files together ----

  /** A pass over the node table: every row once, in any order. */
  ghost predicate ListsNodes(nodes: seq<Node>, t: Tables) {
    && (forall i, j :: 0 <= i < j < |nodes| ==> nodes[i].id != nodes[j].id)
    && (forall i :: 0 <= i < |nodes| ==> 0 <= nodes[i].id && nodes[i].id as nat in t.labels)
    && (forall id :: id in t.labels ==> HasId(nodes, id))
  }

  predicate HasId(nodes: seq<Node>, id: int) {
    exists i :: 0 <= i < |nodes| && nodes[i].id == id
  }

  ghost predicate ListsEdges(edges: seq<Edge>, t: Tables) {
    && (forall i, j :: 0 <= i < j < |edges| ==> edges[i] != edges[j])
    && (forall e: (nat, nat) :: (e.0, e.1) in edges <==> e in t.edges)
    && (forall e :: e in edges ==> 0 <= e.0 && 0 <= e.1)
  }

  lemma {:induction false} WithinIs(edges: seq<Edge>, maxId: int)
    ensures forall e :: e in Within(edges, maxId) <==> e in edges && e.0 <= maxId && e.1 <= maxId
    ensures (forall i, j :: 0 <= i < j < |edges| ==> edges[i] != edges[j]) ==>
              forall i, j :: 0 <= i < j < |Within(edges, maxId)| ==> Within(edges, maxId)[i] != Within(edges, maxId)[j]
  {
    if edges != [] {
      var most, e := edges[..|edges| - 1], edges[|edges| - 1];
      WithinIs(most, maxId);
      assert edges == most + [e];
      assert forall i :: 0 <= i < |Within(most, maxId)| ==> Within(most, maxId)[i] in Within(most, maxId);
    }
  }

  /** While the graph only grows between the passes, both ends of every written edge
      are in the node file, and each edge of the first pass is written exactly once. */
  lemma {:induction false} SnapshotIsWhole(t: Tables, ops: seq<(Op, int)>, nodes: seq<Node>, edges: seq<Edge>)
    requires WellFormed(t) && forall i :: 0 <= i < |ops| ==> !Deletes(ops[i].0)
    requires ListsNodes(nodes, t) && ListsEdges(edges, PlainRun(t, ops).0)
    ensures var written := Within(edges, MaxId(nodes));
            && (forall e :: e in written ==> HasId(nodes, e.0) && HasId(nodes, e.1))
            && (forall e :: e in t.edges ==> (e.0, e.1) in written)
            && (forall i, j :: 0 <= i < j < |written| ==> written[i] != written[j])
  {
    hide PlainRun, Within, MaxId, NodesOk;
    var t' := PlainRun(t, ops).0;
    RunLater(t, ops);
    PlainRunKeeps(t, ops);
    WithinIs(edges, MaxId(nodes));
    forall id | id in t'.labels && id <= MaxId(nodes) ensures HasId(nodes, id) {
      IdsBelowMax(t, nodes);
    }
    forall e: (nat, nat) | e in t.edges ensures (e.0, e.1) in Within(edges, MaxId(nodes)) {
      assert e in t'.edges && HasId(nodes, e.0) && HasId(nodes, e.1);
    }
    forall e | e in Within(edges, MaxId(nodes)) ensures HasId(nodes, e.0) && HasId(nodes, e.1) {
      assert (e.0 as nat, e.1 as nat) in t'.edges;
    }
  }

  lemma {:induction false} IdsBelowMax(t: Tables, nodes: seq<Node>)
    requires WellFormed(t) && ListsNodes(nodes, t)
    ensures MaxId(nodes) < t.nextId
  {
    if n :| n in nodes && n.id == MaxId(nodes) {
      assert n.id as nat in t.labels;
    }
  }
}
