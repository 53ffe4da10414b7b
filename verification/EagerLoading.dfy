/**
 The load* methods of backend/ent/account_query.go: each takes the parents of a query and the rows of one
 edge, and stitches them together through hand-built indexes (byID, nids, nodeids).
 */
module EagerLoading {
  import opened Wrappers
  import opened Accounts
  import opened JoinSpec

  // A database row, asked column by column; the driver fills the target scanValues made for the column.
  type Record = Column -> Buffer

  // One row of the many-to-many join: the parent's ID comes first, then the neighbour's own columns.
  datatype JoinRow = JoinRow(out: Buffer, record: Record)

  datatype Outcome =
    | Ok
    | DecodeFailed(error: DecodeError)
    | UnexpectedNode(id: int)          // a neighbour, or its foreign key, that no parent asked for
    | NilForeignKey(id: int)
    | NilDereference                   // assign called with a nil parent

  ghost predicate WellTyped(record: Record) {
    forall c :: record(c).Kind() == ScanTarget(c).Kind()
  }

  function Cells(columns: seq<Column>, record: Record): seq<Buffer> {
    seq(|columns|, i requires 0 <= i < |columns| => record(columns[i]))
  }

  function RecordId(record: Record): int { Int64Of(record(ID)) }

  function RecordKey(record: Record, column: Column): Option<int> {
    match record(column)
    case NullInt64(v) => v
    case _ => None
  }

  function LinkOf(row: JoinRow): Link { Link(Int64Of(row.out), RecordId(row.record)) }

  function Links(rows: seq<JoinRow>): seq<Link> {
    seq(|rows|, i requires 0 <= i < |rows| => LinkOf(rows[i]))
  }

  // The parents' IDs, as a plain sequence: no loader writes an ID.
  ghost predicate HaveIds(nodes: seq<Entity>, ids: seq<int>)
    reads nodes`id
  {
    |ids| == |nodes| && forall k :: 0 <= k < |nodes| ==> nodes[k].id == ids[k]
  }

  // Parent k is the last with its ID.
  ghost predicate IsLast(ids: seq<int>, k: nat)
    requires k < |ids|
  {
    forall j :: k < j < |ids| ==> ids[j] != ids[k]
  }

  // The last of the first n positions holding `id`, or -1.
  ghost function LastAt(ids: seq<int>, n: nat, id: int): (k: int)
    requires n <= |ids|
    ensures -1 <= k < n && (k >= 0 ==> ids[k] == id)
  {
    if n == 0 then -1 else if ids[n - 1] == id then n - 1 else LastAt(ids, n - 1, id)
  }

  lemma {:induction false} LastAtIsLast(ids: seq<int>, n: nat, id: int)
    requires n <= |ids|
    ensures forall j :: LastAt(ids, n, id) < j < n ==> ids[j] != id
  {
    if n != 0 && ids[n - 1] != id {
      LastAtIsLast(ids, n - 1, id);
    }
  }

  // byID and loadChildren's nodeids over the first n parents: of parents that share an ID the last one wins.
  ghost predicate Indexed(nodes: seq<Entity>, ids: seq<int>, n: nat, byID: map<int, Entity>)
    requires n <= |nodes| == |ids|
  {
    && (forall id :: id in byID <==> LastAt(ids, n, id) >= 0)
    && forall id :: id in byID ==> byID[id] == nodes[LastAt(ids, n, id)]
  }

  lemma Overwrite<V>(edges: map<Edge, V>, edge: Edge, v: V, w: V)
    ensures edges[edge := v][edge := w] == edges[edge := w]
  {}

  lemma IndexedStep(nodes: seq<Entity>, ids: seq<int>, n: nat, byID: map<int, Entity>)
    requires n < |nodes| == |ids| && Indexed(nodes, ids, n, byID)
    ensures Indexed(nodes, ids, n + 1, byID[ids[n] := nodes[n]])
  {}

  // The edge is reset on the first i parents.
  ghost predicate ResetSoFar(edge: Edge, nodes: seq<Entity>, i: nat, before: seq<map<Edge, seq<Entity>>>)
    reads nodes`lists
  {
    |before| == |nodes| && forall k :: 0 <= k < |nodes| ==>
      nodes[k].lists == if k < i then before[k][edge := []] else before[k]
  }

  // The next parent is recorded under its ID, and its edge is reset.
  method IndexNext(edge: Edge, nodes: seq<Entity>, i: nat, byID: map<int, Entity>, ghost ids: seq<int>,
                   ghost before: seq<map<Edge, seq<Entity>>>)
    returns (id: int, byID': map<int, Entity>)
    requires Distinct(nodes) && HaveIds(nodes, ids) && i < |nodes|
    requires Indexed(nodes, ids, i, byID) && ResetSoFar(edge, nodes, i, before)
    modifies nodes`lists
    ensures id == ids[i] && Indexed(nodes, ids, i + 1, byID') && ResetSoFar(edge, nodes, i + 1, before)
  {
    id := nodes[i].id;
    IndexedStep(nodes, ids, i, byID);
    byID' := byID[id := nodes[i]];
    nodes[i].lists := nodes[i].lists[edge := []];
  }

  // The index loop shared by the list loaders: record each parent under its ID and reset the edge.
  method IndexAndReset(edge: Edge, nodes: seq<Entity>, ghost ids: seq<int>, ghost before: seq<map<Edge, seq<Entity>>>)
    returns (edgeIDs: seq<int>, byID: map<int, Entity>)
    requires Distinct(nodes) && HaveIds(nodes, ids) && ResetSoFar(edge, nodes, 0, before)
    modifies nodes`lists
    ensures edgeIDs == ids && Indexed(nodes, ids, |nodes|, byID) && ResetSoFar(edge, nodes, |nodes|, before)
  {
    edgeIDs, byID := [], map[];
    var i := 0;
    while i < |nodes|
      invariant i <= |nodes| && edgeIDs == ids[..i]
      invariant Indexed(nodes, ids, i, byID) && ResetSoFar(edge, nodes, i, before)
    {
      var id;
      id, byID := IndexNext(edge, nodes, i, byID, ids, before);
      edgeIDs, i := edgeIDs + [id], i + 1;
    }
  }

  // What a decoded entity holds: its ID, for every scalar column that was selected the row's value, and the documents
  // and extra columns as assignValues leaves them in a fresh entity.
  ghost predicate Decoded(e: Entity, columns: seq<Column>, record: Record, unmarshal: Unmarshal)
    reads e`id, e`scalars, e`documents, e`selectValues
  {
    && e.id == RecordId(record)
    && (forall c :: IsScalar(c) ==> Field(e.scalars, c) == if c in columns then record(c).Scalar() else None)
    && (forall c :: IsDocument(c) ==> Field(e.documents, c) == DocumentOf(columns, record, c, unmarshal))
    && forall name :: Field(e.selectValues, name) == ExtraOf(columns, record, name)
  }

  ghost function DocumentOf(columns: seq<Column>, record: Record, c: Column, unmarshal: Unmarshal): Option<Value> {
    LastDocument(columns, Cells(columns, record), |columns|, c, None, unmarshal)
  }

  ghost function ExtraOf(columns: seq<Column>, record: Record, name: string): Option<Buffer> {
    LastSelected(columns, Cells(columns, record), |columns|, name, None)
  }

  // Every document selected from the row unmarshals.
  ghost predicate Decodable(columns: seq<Column>, record: Record, unmarshal: Unmarshal) {
    forall i :: 0 <= i < |columns| ==> !Rejected(columns, Cells(columns, record), i, map[], unmarshal)
  }

  // The Assign callback of sqlAll, for one row.
  method ScanEntity(loadedTypes: set<Edge>, columns: seq<Column>, record: Record, unmarshal: Unmarshal)
    returns (err: DecodeError, e: Entity)
    requires ID in columns && WellTyped(record)
    ensures fresh(e) && e.lists == map[] && e.singles == map[] && e.loadedTypes == loadedTypes
    ensures err.NoError? <==> Decodable(columns, record, unmarshal)
    ensures err.NoError? ==> Decoded(e, columns, record, unmarshal)
    ensures err.NoError? || err.BadJson?
  {
    e := new Entity(loadedTypes);
    var cells := Cells(columns, record);
    err := e.AssignValues(columns, cells, unmarshal);
    CellsId(columns, record, |columns|, 0);
    forall c
      ensures LastScalar(columns, cells, |columns|, c, None) == if c in columns then record(c).Scalar() else None
    {
      CellsScalar(columns, record, |columns|, c);
      assert columns[..|columns|] == columns;
    }
    assert columns[..|columns|] == columns;
  }

  lemma {:induction false} CellsId(columns: seq<Column>, record: Record, n: nat, before: int)
    requires n <= |columns|
    ensures LastId(columns, Cells(columns, record), n, before) ==
      if ID in columns[..n] then RecordId(record) else before
  {
    if n != 0 {
      CellsId(columns, record, n - 1, before);
      assert columns[..n] == columns[..n - 1] + [columns[n - 1]];
    }
  }

  lemma {:induction false} CellsScalar(columns: seq<Column>, record: Record, n: nat, c: Column)
    requires n <= |columns|
    ensures LastScalar(columns, Cells(columns, record), n, c, None) ==
      if c in columns[..n] then record(c).Scalar() else None
  {
    if n != 0 {
      CellsScalar(columns, record, n - 1, c);
      assert columns[..n] == columns[..n - 1] + [columns[n - 1]];
    }
  }

  // byID[out] in Go: a nil pointer for an ID no parent has.
  function Owner(byID: map<int, Entity>, out: int): Entity? {
    if out in byID then byID[out] else null
  }

  // The parents some link attaches to neighbour `id`.
  ghost function Owners(byID: map<int, Entity>, links: seq<Link>, id: int): set<Entity?> {
    if links == [] then {}
    else
      var last := |links| - 1;
      Owners(byID, links[..last], id) + if links[last].id == id then {Owner(byID, links[last].out)} else {}
  }

  lemma {:induction false} OwnersExact(nodes: seq<Entity>, ids: seq<int>, byID: map<int, Entity>, links: seq<Link>,
                                       id: int, k: nat)
    requires k < |nodes| == |ids| && Distinct(nodes) && Indexed(nodes, ids, |nodes|, byID)
    ensures nodes[k] in Owners(byID, links, id) <==> IsLast(ids, k) && Link(ids[k], id) in links
  {
    if links != [] {
      var last := |links| - 1;
      OwnersExact(nodes, ids, byID, links[..last], id, k);
      assert links == links[..last] + [links[last]];
      LastAtIsLast(ids, |ids|, links[last].out);
      assert Owner(byID, links[last].out) == nodes[k] <==> LastAt(ids, |ids|, links[last].out) == k;
    }
  }

  lemma {:induction false} OwnersAreParents(nodes: seq<Entity>, ids: seq<int>, byID: map<int, Entity>, links: seq<Link>,
                                            id: int)
    requires |nodes| == |ids| && Indexed(nodes, ids, |nodes|, byID)
    ensures forall a :: a in Owners(byID, links, id) ==> a == null || a in nodes
    ensures null in Owners(byID, links, id) <==> exists l :: l in links && l.id == id && l.out !in ids
    ensures Owners(byID, links, id) == {} <==> !Appears(links, id)
  {
    if links != [] {
      var last := |links| - 1;
      OwnersAreParents(nodes, ids, byID, links[..last], id);
      assert links == links[..last] + [links[last]];
      assert links[last] in links;
      LastAtIsLast(ids, |ids|, links[last].out);
      assert links[last].out in byID <==> links[last].out in ids;
      forall l | l in links[..last] ensures l in links {}
    }
  }

  // The join index: exactly the neighbours of the stream, each with exactly its owners.
  ghost predicate NidsExact(links: seq<Link>, byID: map<int, Entity>, nids: map<int, set<Entity?>>) {
    && (forall id :: id in nids <==> id in FirstIds(links))
    && forall id :: id in nids ==> nids[id] == Owners(byID, links, id)
  }

  lemma NidsStep(links: seq<Link>, l: Link, byID: map<int, Entity>, nids: map<int, set<Entity?>>)
    requires NidsExact(links, byID, nids)
    requires forall id :: Owners(byID, links, id) == {} <==> !Appears(links, id)
    ensures NidsExact(links + [l], byID, nids[l.id := (if l.id in nids then nids[l.id] else {}) + {Owner(byID, l.out)}])
    ensures FirstIds(links + [l]) == if l.id in nids then FirstIds(links) else FirstIds(links) + [l.id]
    ensures l.id !in nids ==> FirstAt(links + [l], l.id) == |links|
    ensures forall id :: id in nids ==> FirstAt(links + [l], id) == FirstAt(links, id) < |links|
  {
    var all := links + [l];
    assert all[..|all| - 1] == links;
    FirstIdsExact(links);
    FirstAtMeans(links, l.id);
    if l.id !in nids {
      forall i | 0 <= i < |links| ensures links[i].id != l.id {
        assert links[i] in links;
      }
    }
  }

  // The rows the neighbours are built from: where each ID came first.
  ghost function Sources(links: seq<Link>): (sources: seq<nat>) {
    seq(|FirstIds(links)|, j requires 0 <= j < |FirstIds(links)| => FirstAt(links, FirstIds(links)[j]))
  }

  lemma RowStep(rows: seq<JoinRow>, i: nat, nodes: seq<Entity>, ids: seq<int>, byID: map<int, Entity>,
                nids: map<int, set<Entity?>>)
    requires i < |rows| && NidsExact(Links(rows[..i]), byID, nids)
    requires |nodes| == |ids| && Indexed(nodes, ids, |nodes|, byID)
    ensures var l, links, next := LinkOf(rows[i]), Links(rows[..i]), Links(rows[..i + 1]);
      && NidsExact(next, byID, nids[l.id := (if l.id in nids then nids[l.id] else {}) + {Owner(byID, l.out)}])
      && Sources(next) == if l.id in nids then Sources(links) else Sources(links) + [i]
  {
    var before, l := Links(rows[..i]), LinkOf(rows[i]);
    assert Links(rows[..i + 1]) == before + [l];
    forall id ensures Owners(byID, before, id) == {} <==> !Appears(before, id) {
      OwnersAreParents(nodes, ids, byID, before, id);
    }
    NidsStep(before, l, byID, nids);
    var next := before + [l];
    assert Links(rows[..i + 1]) == next;
    forall j | 0 <= j < |FirstIds(before)|
      ensures FirstAt(next, FirstIds(before)[j]) == FirstAt(before, FirstIds(before)[j])
    {
      var id := FirstIds(before)[j];
      assert id in FirstIds(before);
      assert id in nids;
    }
  }

  // Neighbour j is decoded from the row its ID came first in.
  ghost predicate BuiltFrom(columns: seq<Column>, rows: seq<JoinRow>, neighbors: seq<Entity>, sources: seq<nat>,
                            unmarshal: Unmarshal)
    reads neighbors`id, neighbors`scalars, neighbors`documents, neighbors`selectValues
  {
    && |neighbors| == |sources|
    && forall j :: 0 <= j < |neighbors| ==>
      sources[j] < |rows| && Decoded(neighbors[j], columns, rows[sources[j]].record, unmarshal)
  }

  // These rows can be decoded; no other row is.
  ghost predicate SourcesDecodable(columns: seq<Column>, rows: seq<JoinRow>, sources: seq<nat>, unmarshal: Unmarshal) {
    forall j :: 0 <= j < |sources| ==> sources[j] < |rows| && Decodable(columns, rows[sources[j]].record, unmarshal)
  }

  // The wrapped Assign callback on row i: a neighbour is built from its first row only; a later row just adds a parent.
  method AssignRow(columns: seq<Column>, rows: seq<JoinRow>, i: nat, byID: map<int, Entity>,
                   nids: map<int, set<Entity?>>, ghost nodes: seq<Entity>, ghost ids: seq<int>, unmarshal: Unmarshal)
    returns (err: DecodeError, nids': map<int, set<Entity?>>, built: seq<Entity>)
    requires |columns| > 0 && columns[0] == ID && i < |rows| && WellTyped(rows[i].record)
    requires |nodes| == |ids| && Indexed(nodes, ids, |nodes|, byID)
    requires NidsExact(Links(rows[..i]), byID, nids)
    ensures err.NoError? || err.BadJson?
    ensures err.NoError? <==> LinkOf(rows[i]).id in nids || Decodable(columns, rows[i].record, unmarshal)
    ensures NidsExact(Links(rows[..i + 1]), byID, nids')
    ensures |built| <= 1 && forall e :: e in built ==> fresh(e)
    ensures err.NoError? ==> forall e :: e in built ==> Decoded(e, columns, rows[i].record, unmarshal)
    ensures built == [] <==> LinkOf(rows[i]).id in nids
    ensures Sources(Links(rows[..i + 1])) == Sources(Links(rows[..i])) + if built == [] then [] else [i]
  {
    RowStep(rows, i, nodes, ids, byID, nids);
    assert forall o: Entity? :: {} + {o} == {o};
    var values := [rows[i].out] + Cells(columns, rows[i].record);
    var outValue, inValue := Int64Of(values[0]), Int64Of(values[1]);
    var owner := if outValue in byID then byID[outValue] else null;
    if inValue !in nids {
      nids' := nids[inValue := {owner}];
      var neighbor;
      err, neighbor := ScanEntity({}, columns, rows[i].record, unmarshal);
      built := [neighbor];
    } else {
      nids' := nids[inValue := nids[inValue] + {owner}];
      err, built := NoError, [];
    }
  }

  lemma SourcesAreKeys(rows: seq<JoinRow>)
    ensures var links, keys := Links(rows), FirstIds(Links(rows));
      forall j :: 0 <= j < |keys| ==> Sources(links)[j] < |rows| && RecordId(rows[Sources(links)[j]].record) == keys[j]
  {
    var links, keys := Links(rows), FirstIds(Links(rows));
    FirstIdsExact(links);
    forall j | 0 <= j < |keys|
      ensures Sources(links)[j] < |rows| && RecordId(rows[Sources(links)[j]].record) == keys[j]
    {
      assert keys[j] in keys;
      FirstAtMeans(links, keys[j]);
    }
  }

  lemma SourcesStep(links: seq<Link>, l: Link)
    ensures Sources(links) <= Sources(links + [l])
  {
    var all := links + [l];
    assert all[..|all| - 1] == links;
    FirstIdsExact(links);
    forall j | 0 <= j < |FirstIds(links)|
      ensures FirstAt(all, FirstIds(links)[j]) == FirstAt(links, FirstIds(links)[j])
    {
      assert FirstIds(links)[j] in FirstIds(links);
    }
  }

  // Reading on never changes which row a neighbour was built from.
  lemma {:induction false} SourcesGrow(rows: seq<JoinRow>, n: nat, m: nat)
    requires n <= m <= |rows|
    ensures Sources(Links(rows[..n])) <= Sources(Links(rows[..m]))
  {
    if n < m {
      SourcesGrow(rows, n, m - 1);
      SourcesStep(Links(rows[..m - 1]), LinkOf(rows[m - 1]));
      assert Links(rows[..m]) == Links(rows[..m - 1]) + [LinkOf(rows[m - 1])];
    }
  }

  // A neighbour that cannot be decoded spoils the whole stream.
  lemma OneBadSource(columns: seq<Column>, rows: seq<JoinRow>, i: nat, unmarshal: Unmarshal)
    requires i < |rows| && !Decodable(columns, rows[i].record, unmarshal)
    requires Sources(Links(rows[..i + 1])) == Sources(Links(rows[..i])) + [i]
    ensures !SourcesDecodable(columns, rows, Sources(Links(rows)), unmarshal)
  {
    SourcesGrow(rows, i + 1, |rows|);
    assert rows[..|rows|] == rows;
    var j := |Sources(Links(rows[..i]))|;
    assert Sources(Links(rows))[j] == i;
  }

  // The join index and the neighbours after the first n rows.
  ghost predicate ReadSoFar(columns: seq<Column>, rows: seq<JoinRow>, n: nat, byID: map<int, Entity>,
                            nids: map<int, set<Entity?>>, neighbors: seq<Entity>, unmarshal: Unmarshal)
    requires n <= |rows|
    reads neighbors`id, neighbors`scalars, neighbors`documents, neighbors`selectValues
  {
    var links := Links(rows[..n]);
    && NidsExact(links, byID, nids)
    && SourcesDecodable(columns, rows, Sources(links), unmarshal)
    && BuiltFrom(columns, rows, neighbors, Sources(links), unmarshal)
  }

  method ReadRow(columns: seq<Column>, rows: seq<JoinRow>, i: nat, byID: map<int, Entity>, nids: map<int, set<Entity?>>,
                 neighbors: seq<Entity>, ghost nodes: seq<Entity>, ghost ids: seq<int>, unmarshal: Unmarshal)
    returns (err: DecodeError, nids': map<int, set<Entity?>>, neighbors': seq<Entity>)
    requires |columns| > 0 && columns[0] == ID && i < |rows| && WellTyped(rows[i].record)
    requires |nodes| == |ids| && Indexed(nodes, ids, |nodes|, byID)
    requires ReadSoFar(columns, rows, i, byID, nids, neighbors, unmarshal)
    ensures err.NoError? || err.BadJson?
    ensures forall e :: e in neighbors' ==> e in neighbors || fresh(e)
    ensures err.NoError? ==> ReadSoFar(columns, rows, i + 1, byID, nids', neighbors', unmarshal)
    ensures !err.NoError? ==> !SourcesDecodable(columns, rows, Sources(Links(rows)), unmarshal)
  {
    var built;
    err, nids', built := AssignRow(columns, rows, i, byID, nids, nodes, ids, unmarshal);
    neighbors' := neighbors + built;
    if !err.NoError? {
      OneBadSource(columns, rows, i, unmarshal);
    }
  }

  // First half of loadGroups and loadProxies: read every row of the join.
  method ReadNeighbors(columns: seq<Column>, rows: seq<JoinRow>, ghost nodes: seq<Entity>, ghost ids: seq<int>,
                       byID: map<int, Entity>, unmarshal: Unmarshal)
    returns (err: DecodeError, nids: map<int, set<Entity?>>, neighbors: seq<Entity>)
    requires |columns| > 0 && columns[0] == ID
    requires forall i :: 0 <= i < |rows| ==> WellTyped(rows[i].record)
    requires |nodes| == |ids| && Indexed(nodes, ids, |nodes|, byID)
    ensures err.NoError? || err.BadJson?
    ensures err.NoError? <==> SourcesDecodable(columns, rows, Sources(Links(rows)), unmarshal)
    ensures forall e :: e in neighbors ==> fresh(e)
    ensures err.NoError? ==> NidsExact(Links(rows), byID, nids)
    ensures err.NoError? ==> BuiltFrom(columns, rows, neighbors, Sources(Links(rows)), unmarshal)
    ensures err.NoError? ==> HaveIds(neighbors, FirstIds(Links(rows)))
  {
    err, nids, neighbors := NoError, map[], [];
    for i := 0 to |rows|
      invariant err.NoError? && ReadSoFar(columns, rows, i, byID, nids, neighbors, unmarshal)
      invariant forall e :: e in neighbors ==> fresh(e)
    {
      err, nids, neighbors := ReadRow(columns, rows, i, byID, nids, neighbors, nodes, ids, unmarshal);
      if !err.NoError? {
        return;
      }
    }
    assert rows[..|rows|] == rows;
    SourcesAreKeys(rows);
  }

  // Neighbours whose set contains parent `a`, in order.
  ghost function Received(neighbors: seq<Entity>, keys: seq<int>, nids: map<int, set<Entity?>>, a: Entity): seq<Entity>
    requires |neighbors| == |keys|
  {
    if keys == [] then []
    else
      var last := |keys| - 1;
      Received(neighbors[..last], keys[..last], nids, a) +
      if keys[last] in nids && a in nids[keys[last]] then [neighbors[last]] else []
  }

  // Hand neighbour n to every parent in its set. Go's map order is any order, and so is `:|`.
  method AssignToOwners(edge: Edge, nodes: seq<Entity>, n: Entity, owners: set<Entity?>) returns (nilOwner: bool)
    requires forall k :: 0 <= k < |nodes| ==> edge in nodes[k].lists
    requires forall a :: a in owners ==> a == null || a in nodes
    modifies nodes`lists
    ensures nilOwner <==> null in owners
    ensures !nilOwner ==> forall k :: 0 <= k < |nodes| ==>
      nodes[k].lists == if nodes[k] in owners then old(nodes[k].lists)[edge := old(nodes[k].lists[edge]) + [n]]
                        else old(nodes[k].lists)
  {
    var rest: set<Entity?> := owners;
    while rest != {}
      invariant rest <= owners && null !in owners - rest
      invariant forall k :: 0 <= k < |nodes| ==>
        nodes[k].lists == if nodes[k] in owners - rest then old(nodes[k].lists)[edge := old(nodes[k].lists[edge]) + [n]]
                          else old(nodes[k].lists)
    {
      var kn: Entity? :| kn in rest;
      if kn == null {
        return true;
      }
      assert kn in nodes && kn !in owners - rest;
      rest := rest - {kn};
      kn.lists := kn.lists[edge := kn.lists[edge] + [n]];
    }
    return false;
  }

  // The lists after the first j neighbours: those before, with what each parent received in the edge.
  ghost predicate Stitched(edge: Edge, nodes: seq<Entity>, neighbors: seq<Entity>, keys: seq<int>, j: nat,
                           nids: map<int, set<Entity?>>, before: seq<map<Edge, seq<Entity>>>)
    requires j <= |neighbors| == |keys|
    reads nodes`lists
  {
    |nodes| == |before| && forall k :: 0 <= k < |nodes| ==>
      nodes[k].lists == before[k][edge := Received(neighbors[..j], keys[..j], nids, nodes[k])]
  }

  lemma ReceivedStep(neighbors: seq<Entity>, keys: seq<int>, j: nat, nids: map<int, set<Entity?>>, a: Entity)
    requires j < |neighbors| == |keys|
    ensures Received(neighbors[..j + 1], keys[..j + 1], nids, a) ==
      if keys[j] in nids && a in nids[keys[j]] then Received(neighbors[..j], keys[..j], nids, a) + [neighbors[j]]
      else Received(neighbors[..j], keys[..j], nids, a)
  {
    assert neighbors[..j + 1][..j] == neighbors[..j] && keys[..j + 1][..j] == keys[..j];
  }

  method StitchOne(edge: Edge, nodes: seq<Entity>, neighbors: seq<Entity>, ghost keys: seq<int>, j: nat,
                   nids: map<int, set<Entity?>>, ghost before: seq<map<Edge, seq<Entity>>>)
    returns (nilOwner: bool)
    requires HaveIds(neighbors, keys) && j < |neighbors| && keys[j] in nids
    requires forall a :: a in nids[keys[j]] ==> a == null || a in nodes
    requires Stitched(edge, nodes, neighbors, keys, j, nids, before)
    modifies nodes`lists
    ensures nilOwner <==> null in nids[keys[j]]
    ensures !nilOwner ==> Stitched(edge, nodes, neighbors, keys, j + 1, nids, before)
  {
    nilOwner := AssignToOwners(edge, nodes, neighbors[j], nids[neighbors[j].id]);
    if !nilOwner {
      forall k | 0 <= k < |nodes|
        ensures nodes[k].lists == before[k][edge := Received(neighbors[..j + 1], keys[..j + 1], nids, nodes[k])]
      {
        var had := Received(neighbors[..j], keys[..j], nids, nodes[k]);
        ReceivedStep(neighbors, keys, j, nids, nodes[k]);
        Overwrite(before[k], edge, had, had + [neighbors[j]]);
      }
    }
  }

  // Second half: visit the neighbours in order.
  method Stitch(edge: Edge, nodes: seq<Entity>, neighbors: seq<Entity>, ghost keys: seq<int>,
                nids: map<int, set<Entity?>>, ghost before: seq<map<Edge, seq<Entity>>>)
    returns (outcome: Outcome)
    requires HaveIds(neighbors, keys) && Stitched(edge, nodes, neighbors, keys, 0, nids, before)
    requires forall id, a :: id in nids && a in nids[id] ==> a == null || a in nodes
    modifies nodes`lists
    ensures outcome.Ok? <==> forall j :: 0 <= j < |keys| ==> keys[j] in nids && null !in nids[keys[j]]
    ensures outcome.NilDereference? ==> exists j :: 0 <= j < |keys| && keys[j] in nids && null in nids[keys[j]]
    ensures outcome.UnexpectedNode? ==> outcome.id in keys && outcome.id !in nids
    ensures outcome.Ok? || outcome.NilDereference? || outcome.UnexpectedNode?
    ensures outcome.Ok? ==> Stitched(edge, nodes, neighbors, keys, |keys|, nids, before)
  {
    for j := 0 to |neighbors|
      invariant forall i :: 0 <= i < j ==> keys[i] in nids && null !in nids[keys[i]]
      invariant Stitched(edge, nodes, neighbors, keys, j, nids, before)
    {
      if neighbors[j].id !in nids {
        return UnexpectedNode(neighbors[j].id);
      }
      var nilOwner := StitchOne(edge, nodes, neighbors, keys, j, nids, before);
      if nilOwner {
        return NilDereference;
      }
    }
    return Ok;
  }

  // Those of the neighbours (or their rows), whose IDs are the keys, that are linked to `out`, in order: the
  // nested-loop join on objects.
  function Picked<T>(neighbors: seq<T>, keys: seq<int>, links: seq<Link>, out: int): seq<T>
    requires |neighbors| == |keys|
  {
    if keys == [] then []
    else
      var last := |keys| - 1;
      var before := Picked(neighbors[..last], keys[..last], links, out);
      if Link(out, keys[last]) in links then before + [neighbors[last]] else before
  }

  // The list of parent k; an earlier parent with the same ID gets nothing.
  ghost function Share<T>(neighbors: seq<T>, links: seq<Link>, ids: seq<int>, k: nat): seq<T>
    requires |neighbors| == |FirstIds(links)| && k < |ids|
  {
    if IsLast(ids, k) then Picked(neighbors, FirstIds(links), links, ids[k]) else []
  }

  // The same by ID.
  ghost function ExpectedIds(links: seq<Link>, ids: seq<int>, k: nat): seq<int>
    requires k < |ids|
  {
    if IsLast(ids, k) then NaiveJoin(links, ids[k]) else []
  }

  lemma EmptyJoin(links: seq<Link>, out: int)
    ensures NaiveJoin(links, out) == [] <==> forall l :: l in links ==> l.out != out
  {
    NaiveJoinExact(links, out);
    var join := NaiveJoin(links, out);
    if join != [] {
      assert join[0] in join;
      assert Link(out, join[0]) in links;
    }
    forall l | l in links && l.out == out ensures l.id in join {
      assert l == Link(out, l.id);
    }
  }

  // A parent gets the join of its ID exactly if no later parent has that ID, or there is nothing to get.
  lemma OnlyTheLastGetsAList(links: seq<Link>, ids: seq<int>, k: nat)
    requires k < |ids|
    ensures ExpectedIds(links, ids, k) == NaiveJoin(links, ids[k])
      <==> (forall j :: k < j < |ids| ==> ids[j] != ids[k]) || (forall l :: l in links ==> l.out != ids[k])
  {
    EmptyJoin(links, ids[k]);
  }

  // Of two parents with ID 7, the first gets nothing of the row that names 7.
  lemma SharedIdLosesAList()
    ensures ExpectedIds([Link(7, 1)], [7, 7], 0) == [] && NaiveJoin([Link(7, 1)], 7) == [1]
  {
    var links, ids := [Link(7, 1)], [7, 7];
    assert ids[1] == ids[0];
    NaiveJoinExact(links, 7);
    assert links[0] in links && forall l :: l in links ==> l == Link(7, 1);
    var join := NaiveJoin(links, 7);
    assert 1 in join && forall id :: id in join ==> id == 1;
  }

  // What is picked has the IDs of the nested-loop join.
  lemma {:induction false} PickedHaveIds(neighbors: seq<Entity>, keys: seq<int>, links: seq<Link>, out: int)
    requires HaveIds(neighbors, keys)
    ensures HaveIds(Picked(neighbors, keys, links, out), LinkedAmong(keys, links, out))
    ensures forall e :: e in Picked(neighbors, keys, links, out) ==> e in neighbors
  {
    if keys != [] {
      PickedHaveIds(neighbors[..|keys| - 1], keys[..|keys| - 1], links, out);
    }
  }

  // So a parent's list is, by ID, the nested-loop join of JoinSpec.
  lemma ShareHasIds(neighbors: seq<Entity>, links: seq<Link>, ids: seq<int>, k: nat)
    requires HaveIds(neighbors, FirstIds(links)) && k < |ids|
    ensures HaveIds(Share(neighbors, links, ids, k), ExpectedIds(links, ids, k))
  {
    PickedHaveIds(neighbors, FirstIds(links), links, ids[k]);
  }

  // Reading the index gives what is picked, when membership in its sets is linkage.
  lemma {:induction false} ReceivedIsPicked(neighbors: seq<Entity>, keys: seq<int>, nids: map<int, set<Entity?>>,
                                            links: seq<Link>, a: Entity, out: int)
    requires |neighbors| == |keys|
    requires forall j :: 0 <= j < |keys| ==> keys[j] in nids && (a in nids[keys[j]] <==> Link(out, keys[j]) in links)
    ensures Received(neighbors, keys, nids, a) == Picked(neighbors, keys, links, out)
  {
    if keys != [] {
      var last := |keys| - 1;
      ReceivedIsPicked(neighbors[..last], keys[..last], nids, links, a, out);
    }
  }

  lemma {:induction false} ReceivedByNobody(neighbors: seq<Entity>, keys: seq<int>, nids: map<int, set<Entity?>>,
                                            a: Entity)
    requires |neighbors| == |keys|
    requires forall j :: 0 <= j < |keys| && keys[j] in nids ==> a !in nids[keys[j]]
    ensures Received(neighbors, keys, nids, a) == []
  {
    if keys != [] {
      ReceivedByNobody(neighbors[..|keys| - 1], keys[..|keys| - 1], nids, a);
    }
  }

  lemma ReceivedIsShare(neighbors: seq<Entity>, nids: map<int, set<Entity?>>, links: seq<Link>,
                        nodes: seq<Entity>, ids: seq<int>, byID: map<int, Entity>, k: nat)
    requires |neighbors| == |FirstIds(links)| && NidsExact(links, byID, nids)
    requires k < |nodes| == |ids| && Distinct(nodes) && Indexed(nodes, ids, |nodes|, byID)
    ensures Received(neighbors, FirstIds(links), nids, nodes[k]) == Share(neighbors, links, ids, k)
  {
    var keys := FirstIds(links);
    forall j | 0 <= j < |keys|
      ensures keys[j] in nids && (nodes[k] in nids[keys[j]] <==> IsLast(ids, k) && Link(ids[k], keys[j]) in links)
    {
      assert keys[j] in keys;
      OwnersExact(nodes, ids, byID, links, keys[j], k);
    }
    if IsLast(ids, k) {
      ReceivedIsPicked(neighbors, keys, nids, links, nodes[k], ids[k]);
    } else {
      ReceivedByNobody(neighbors, keys, nids, nodes[k]);
    }
  }

  lemma OwnersAreSound(nodes: seq<Entity>, ids: seq<int>, byID: map<int, Entity>, links: seq<Link>,
                       nids: map<int, set<Entity?>>)
    requires |nodes| == |ids| && Indexed(nodes, ids, |nodes|, byID) && NidsExact(links, byID, nids)
    ensures forall id, a :: id in nids && a in nids[id] ==> a == null || a in nodes
    ensures (forall id :: id in FirstIds(links) ==> id in nids && null !in nids[id]) <==>
      (forall l :: l in links ==> l.out in ids)
  {
    FirstIdsExact(links);
    forall id | id in nids
      ensures forall a :: a in nids[id] ==> a == null || a in nodes
      ensures null in nids[id] <==> exists l :: l in links && l.id == id && l.out !in ids
    {
      OwnersAreParents(nodes, ids, byID, links, id);
    }
    if l :| l in links && l.out !in ids {
      assert Appears(links, l.id);
      assert null in nids[l.id];
    }
  }

  // The same, told in terms of the links: every parent ends with the nested-loop join.
  method StitchJoin(edge: Edge, nodes: seq<Entity>, neighbors: seq<Entity>, nids: map<int, set<Entity?>>,
                    ghost links: seq<Link>, ghost ids: seq<int>, ghost byID: map<int, Entity>,
                    ghost before: seq<map<Edge, seq<Entity>>>)
    returns (outcome: Outcome)
    requires Distinct(nodes) && |nodes| == |ids| == |before| && Indexed(nodes, ids, |nodes|, byID)
    requires HaveIds(neighbors, FirstIds(links)) && NidsExact(links, byID, nids)
    requires forall k :: 0 <= k < |nodes| ==> nodes[k].lists == before[k][edge := []]
    modifies nodes`lists
    ensures outcome == Ok || outcome == NilDereference
    ensures outcome.Ok? <==> forall l :: l in links ==> l.out in ids
    ensures outcome.Ok? ==> forall k :: 0 <= k < |nodes| ==>
      nodes[k].lists == before[k][edge := Share(neighbors, links, ids, k)]
  {
    var keys := FirstIds(links);
    OwnersAreSound(nodes, ids, byID, links, nids);
    outcome := Stitch(edge, nodes, neighbors, keys, nids, before);
    if outcome.Ok? {
      assert neighbors[..|keys|] == neighbors && keys[..|keys|] == keys;
      forall k | 0 <= k < |nodes| ensures nodes[k].lists == before[k][edge := Share(neighbors, links, ids, k)] {
        ReceivedIsShare(neighbors, nids, links, nodes, ids, byID, k);
      }
    }
  }

  // Both halves, on the rows the query returned, once the parents are indexed and their edges reset.
  method JoinRows(edge: Edge, nodes: seq<Entity>, columns: seq<Column>, rows: seq<JoinRow>, byID: map<int, Entity>,
                  unmarshal: Unmarshal, ghost ids: seq<int>, ghost before: seq<map<Edge, seq<Entity>>>)
    returns (outcome: Outcome, neighbors: seq<Entity>)
    requires Distinct(nodes) && |nodes| == |ids| == |before| && Indexed(nodes, ids, |nodes|, byID)
    requires |columns| > 0 && columns[0] == ID
    requires forall i :: 0 <= i < |rows| ==> WellTyped(rows[i].record)
    requires forall k :: 0 <= k < |nodes| ==> nodes[k].lists == before[k][edge := []]
    modifies nodes`lists
    ensures forall e :: e in neighbors ==> fresh(e)
    ensures outcome.Ok? || outcome.NilDereference? || outcome.DecodeFailed?
    ensures outcome.DecodeFailed? <==> !SourcesDecodable(columns, rows, Sources(Links(rows)), unmarshal)
    ensures !outcome.DecodeFailed? ==> (outcome.Ok? <==> forall l :: l in Links(rows) ==> l.out in ids)
    ensures outcome.Ok? ==> BuiltFrom(columns, rows, neighbors, Sources(Links(rows)), unmarshal)
    ensures outcome.Ok? ==> HaveIds(neighbors, FirstIds(Links(rows)))
    ensures outcome.Ok? ==> forall k :: 0 <= k < |nodes| ==>
      nodes[k].lists == before[k][edge := Share(neighbors, Links(rows), ids, k)]
  {
    var err, nids;
    err, nids, neighbors := ReadNeighbors(columns, rows, nodes, ids, byID, unmarshal);
    if !err.NoError? {
      return DecodeFailed(err), neighbors;
    }
    outcome := StitchJoin(edge, nodes, neighbors, nids, Links(rows), ids, byID, before);
  }

  // Every row of the stream names one of the parents.
  ghost predicate OwnersKnown(rows: seq<JoinRow>, ids: seq<int>) { forall l :: l in Links(rows) ==> l.out in ids }

  /**
   loadGroups and loadProxies. The index always agrees with the nested-loop join, for every row stream and in
   whatever order Go ranges over the sets. It fails exactly if the first row of some neighbour holds a document that
   does not decode, or a row's parent ID belongs to no parent, which makes assign dereference a nil parent.
   */
  method LoadToMany(edge: Edge, nodes: seq<Entity>, columns: seq<Column>, fetch: seq<int> -> seq<JoinRow>,
                    unmarshal: Unmarshal, ghost ids: seq<int>)
    returns (outcome: Outcome, neighbors: seq<Entity>)
    requires Distinct(nodes) && HaveIds(nodes, ids)
    requires |columns| > 0 && columns[0] == ID
    requires forall row :: row in fetch(ids) ==> WellTyped(row.record)
    modifies nodes`lists
    ensures forall e :: e in neighbors ==> fresh(e)
    ensures outcome.Ok? || outcome.NilDereference? || outcome.DecodeFailed?
    ensures outcome.DecodeFailed? <==> !SourcesDecodable(columns, fetch(ids), Sources(Links(fetch(ids))), unmarshal)
    ensures !outcome.DecodeFailed? ==> (outcome.Ok? <==> OwnersKnown(fetch(ids), ids))
    ensures outcome.Ok? ==> BuiltFrom(columns, fetch(ids), neighbors, Sources(Links(fetch(ids))), unmarshal)
    ensures outcome.Ok? ==> HaveIds(neighbors, FirstIds(Links(fetch(ids))))
    ensures outcome.Ok? ==> forall k :: 0 <= k < |nodes| ==>
      nodes[k].lists == old(nodes[k].lists)[edge := Share(neighbors, Links(fetch(ids)), ids, k)]
  {
    ghost var before := seq(|nodes|, k requires 0 <= k < |nodes| reads nodes => nodes[k].lists);
    var edgeIDs, byID := IndexAndReset(edge, nodes, ids, before);
    var rows := fetch(edgeIDs);
    forall i | 0 <= i < |rows| ensures WellTyped(rows[i].record) {
      assert rows[i] in rows;
    }
    outcome, neighbors := JoinRows(edge, nodes, columns, rows, byID, unmarshal, ids, before);
  }

  ghost predicate AllDecodable(columns: seq<Column>, records: seq<Record>, unmarshal: Unmarshal) {
    forall j :: 0 <= j < |records| ==> Decodable(columns, records[j], unmarshal)
  }

  ghost predicate AllDecoded(es: seq<Entity>, columns: seq<Column>, records: seq<Record>, unmarshal: Unmarshal)
    reads es`id, es`scalars, es`documents, es`selectValues
  {
    |es| == |records| && forall j :: 0 <= j < |es| ==> Decoded(es[j], columns, records[j], unmarshal)
  }

  // No edge is set yet.
  ghost predicate Blank(e: Entity, loadedTypes: set<Edge>)
    reads e`lists, e`singles, e`loadedTypes
  {
    e.lists == map[] && e.singles == map[] && e.loadedTypes == loadedTypes
  }

  // One more row.
  lemma OneMoreRow(es: seq<Entity>, e: Entity, columns: seq<Column>, records: seq<Record>, i: nat, unmarshal: Unmarshal)
    requires i < |records| && AllDecodable(columns, records[..i], unmarshal)
    requires Decodable(columns, records[i], unmarshal)
    requires AllDecoded(es, columns, records[..i], unmarshal) && Decoded(e, columns, records[i], unmarshal)
    ensures AllDecodable(columns, records[..i + 1], unmarshal)
    ensures AllDecoded(es + [e], columns, records[..i + 1], unmarshal)
  {}

  // One entity for each row, with no edge set.
  ghost predicate Entered(es: seq<Entity>, loadedTypes: set<Edge>)
    reads es`lists, es`singles, es`loadedTypes
  {
    Distinct(es) && forall e :: e in es ==> Blank(e, loadedTypes)
  }

  // The next row of the query: its entity stands behind the others, decoded or not.
  method ScanNext(loadedTypes: set<Edge>, columns: seq<Column>, records: seq<Record>, i: nat, es: seq<Entity>,
                  unmarshal: Unmarshal)
    returns (err: DecodeError, es': seq<Entity>)
    requires ID in columns && i < |records| && WellTyped(records[i]) && Entered(es, loadedTypes)
    requires AllDecodable(columns, records[..i], unmarshal) && AllDecoded(es, columns, records[..i], unmarshal)
    ensures Entered(es', loadedTypes) && forall e :: e in es' ==> e in es || fresh(e)
    ensures err.NoError? || (err.BadJson? && !AllDecodable(columns, records, unmarshal))
    ensures err.NoError? ==>
      AllDecodable(columns, records[..i + 1], unmarshal) && AllDecoded(es', columns, records[..i + 1], unmarshal)
  {
    var e;
    err, e := ScanEntity(loadedTypes, columns, records[i], unmarshal);
    es' := es + [e];
    if err.NoError? {
      OneMoreRow(es, e, columns, records, i, unmarshal);
    }
  }

  // The decoded rows of a query, in row order.
  method ScanEntities(loadedTypes: set<Edge>, columns: seq<Column>, records: seq<Record>, unmarshal: Unmarshal)
    returns (err: DecodeError, es: seq<Entity>)
    requires ID in columns && forall r :: r in records ==> WellTyped(r)
    ensures err.NoError? || err.BadJson?
    ensures Entered(es, loadedTypes) && forall e :: e in es ==> fresh(e)
    ensures err.NoError? <==> AllDecodable(columns, records, unmarshal)
    ensures err.NoError? ==> AllDecoded(es, columns, records, unmarshal)
  {
    err, es := NoError, [];
    var i := 0;
    while i < |records|
      invariant err.NoError? && i <= |records| && AllDecodable(columns, records[..i], unmarshal)
      invariant AllDecoded(es, columns, records[..i], unmarshal)
      invariant Entered(es, loadedTypes) && forall e :: e in es ==> fresh(e)
    {
      err, es := ScanNext(loadedTypes, columns, records, i, es, unmarshal);
      if !err.NoError? {
        return;
      }
      i := i + 1;
    }
    assert records[..|records|] == records;
  }

  // The parents' foreign keys in `column`: no loader writes a scalar.
  ghost predicate HaveKeys(nodes: seq<Entity>, column: Column, keys: seq<Option<int>>)
    reads nodes`scalars
  {
    |keys| == |nodes| && forall k :: 0 <= k < |nodes| ==> KeyIn(nodes[k].scalars, column) == keys[k]
  }

  // Among the first n keys, the non-nil ones, each once, in order of first appearance.
  ghost function Wanted(keys: seq<Option<int>>, n: nat): seq<int>
    requires n <= |keys|
  {
    if n == 0 then []
    else if keys[n - 1].None? || keys[n - 1].value in Wanted(keys, n - 1) then Wanted(keys, n - 1)
    else Wanted(keys, n - 1) + [keys[n - 1].value]
  }

  ghost predicate References(keys: seq<Option<int>>, n: nat, id: int)
    requires n <= |keys|
  {
    exists k :: 0 <= k < n && keys[k] == Some(id)
  }

  lemma {:induction false} WantedExact(keys: seq<Option<int>>, n: nat)
    requires n <= |keys|
    ensures Distinct(Wanted(keys, n))
    ensures forall id :: id in Wanted(keys, n) <==> References(keys, n, id)
  {
    if n != 0 {
      WantedExact(keys, n - 1);
      forall id ensures id in Wanted(keys, n) <==> References(keys, n, id) {
        if keys[n - 1] == Some(id) {
          assert References(keys, n, id);
        }
      }
    }
  }

  // Of the first n parents, those whose key is fk.
  ghost function Waiting(nodes: seq<Entity>, keys: seq<Option<int>>, n: nat, fk: int): seq<Entity>
    requires n <= |nodes| == |keys|
  {
    if n == 0 then []
    else Waiting(nodes, keys, n - 1, fk) + if keys[n - 1] == Some(fk) then [nodes[n - 1]] else []
  }

  lemma {:induction false} WaitingExact(nodes: seq<Entity>, keys: seq<Option<int>>, n: nat, fk: int)
    requires n <= |nodes| == |keys|
    ensures forall a :: a in Waiting(nodes, keys, n, fk) <==> exists k ::
      0 <= k < n && nodes[k] == a && keys[k] == Some(fk)
    ensures Waiting(nodes, keys, n, fk) != [] <==> References(keys, n, fk)
  {
    if n != 0 {
      WaitingExact(nodes, keys, n - 1, fk);
      if keys[n - 1] == Some(fk) {
        assert References(keys, n, fk);
      }
    }
  }

  ghost predicate KeyIndex(nodes: seq<Entity>, keys: seq<Option<int>>, n: nat, nodeids: map<int, seq<Entity>>)
    requires n <= |nodes| == |keys|
  {
    && (forall fk :: fk in nodeids <==> References(keys, n, fk))
    && forall fk :: fk in nodeids ==> nodeids[fk] == Waiting(nodes, keys, n, fk)
  }

  lemma ReferencesStep(keys: seq<Option<int>>, i: nat, fk: int)
    requires i < |keys|
    ensures References(keys, i + 1, fk) <==> References(keys, i, fk) || keys[i] == Some(fk)
  {
    if keys[i] == Some(fk) {
      assert References(keys, i + 1, fk);
    }
  }

  lemma WantedStep(keys: seq<Option<int>>, i: nat)
    requires i < |keys|
    ensures Wanted(keys, i + 1) ==
      if keys[i].None? || References(keys, i, keys[i].value) then Wanted(keys, i) else Wanted(keys, i) + [keys[i].value]
  {
    WantedExact(keys, i);
  }

  // A nil key changes nothing.
  lemma KeyIndexSkip(nodes: seq<Entity>, keys: seq<Option<int>>, i: nat, nodeids: map<int, seq<Entity>>)
    requires i < |nodes| == |keys| && KeyIndex(nodes, keys, i, nodeids) && keys[i].None?
    ensures KeyIndex(nodes, keys, i + 1, nodeids) && Wanted(keys, i + 1) == Wanted(keys, i)
  {
    forall fk ensures References(keys, i + 1, fk) <==> References(keys, i, fk) {
      ReferencesStep(keys, i, fk);
    }
  }

  lemma KeyIndexStep(nodes: seq<Entity>, keys: seq<Option<int>>, i: nat, nodeids: map<int, seq<Entity>>, fk: int)
    requires i < |nodes| == |keys| && KeyIndex(nodes, keys, i, nodeids) && keys[i] == Some(fk)
    ensures KeyIndex(nodes, keys, i + 1, nodeids[fk := (if fk in nodeids then nodeids[fk] else []) + [nodes[i]]])
    ensures Wanted(keys, i + 1) == if fk in nodeids then Wanted(keys, i) else Wanted(keys, i) + [fk]
  {
    forall id ensures References(keys, i + 1, id) <==> References(keys, i, id) || id == fk {
      ReferencesStep(keys, i, id);
    }
    WantedStep(keys, i);
    WaitingExact(nodes, keys, i, fk);
  }

  method IndexByKey(column: Column, nodes: seq<Entity>, ghost keys: seq<Option<int>>)
    returns (ids: seq<int>, nodeids: map<int, seq<Entity>>)
    requires HaveKeys(nodes, column, keys)
    ensures ids == Wanted(keys, |keys|) && KeyIndex(nodes, keys, |nodes|, nodeids)
  {
    ids, nodeids := [], map[];
    for i := 0 to |nodes|
      invariant ids == Wanted(keys, i) && KeyIndex(nodes, keys, i, nodeids)
    {
      var key := KeyIn(nodes[i].scalars, column);
      if key.None? {
        KeyIndexSkip(nodes, keys, i, nodeids);
        continue;
      }
      var fk := key.value;
      KeyIndexStep(nodes, keys, i, nodeids, fk);
      if fk !in nodeids {
        ids := ids + [fk];
      }
      nodeids := nodeids[fk := (if fk in nodeids then nodeids[fk] else []) + [nodes[i]]];
    }
  }

  method AssignSingle(edge: Edge, nodes: seq<Entity>, waiting: seq<Entity>, n: Entity)
    requires forall a :: a in waiting ==> a in nodes
    modifies nodes`singles
    ensures forall k :: 0 <= k < |nodes| ==>
      nodes[k].singles == if nodes[k] in waiting then old(nodes[k].singles)[edge := n] else old(nodes[k].singles)
  {
    for i := 0 to |waiting|
      invariant forall k :: 0 <= k < |nodes| ==>
        nodes[k].singles == if nodes[k] in waiting[..i] then old(nodes[k].singles)[edge := n] else old(nodes[k].singles)
    {
      assert waiting[..i + 1] == waiting[..i] + [waiting[i]];
      assert waiting[i] in nodes;
      waiting[i].singles := waiting[i].singles[edge := n];
    }
    assert waiting[..|waiting|] == waiting;
  }

  function RecordIds(records: seq<Record>): seq<int> {
    seq(|records|, i requires 0 <= i < |records| => RecordId(records[i]))
  }

  // The row a parent's key points at, if it has a key and there is such a row: of several, the last.
  ghost function Referenced<T>(neighbors: seq<T>, ids: seq<int>, n: nat, key: Option<int>): Option<T>
    requires n <= |ids| == |neighbors|
  {
    if key.Some? && LastAt(ids, n, key.value) >= 0 then Some(neighbors[LastAt(ids, n, key.value)]) else None
  }

  // edges with the edge set, if there is anything to set.
  function With<V>(edges: map<Edge, V>, edge: Edge, v: Option<V>): map<Edge, V> {
    if v.Some? then edges[edge := v.value] else edges
  }

  // The edges after the first j returned rows.
  ghost predicate Referred(edge: Edge, nodes: seq<Entity>, neighbors: seq<Entity>, ids: seq<int>, j: nat,
                           keys: seq<Option<int>>, before: seq<map<Edge, Entity>>)
    requires j <= |ids| == |neighbors|
    reads nodes`singles
  {
    |nodes| == |keys| == |before| && forall k {:trigger nodes[k].singles} :: 0 <= k < |nodes| ==>
      nodes[k].singles == With(before[k], edge, Referenced(neighbors, ids, j, keys[k]))
  }

  lemma ReferencedStep(neighbors: seq<Entity>, ids: seq<int>, j: nat, key: Option<int>, before: map<Edge, Entity>,
                       edge: Edge)
    requires j < |ids| == |neighbors|
    ensures With(before, edge, Referenced(neighbors, ids, j + 1, key)) ==
      if key == Some(ids[j]) then With(before, edge, Referenced(neighbors, ids, j, key))[edge := neighbors[j]]
      else With(before, edge, Referenced(neighbors, ids, j, key))
  {
    if key == Some(ids[j]) && Referenced(neighbors, ids, j, key).Some? {
      Overwrite(before, edge, Referenced(neighbors, ids, j, key).value, neighbors[j]);
    }
  }

  // Which parents wait for which key.
  ghost predicate WaitsFor(nodes: seq<Entity>, keys: seq<Option<int>>, nodeids: map<int, seq<Entity>>) {
    && |nodes| == |keys|
    && (forall fk, a {:trigger a in nodeids[fk]} :: fk in nodeids && a in nodeids[fk] ==> a in nodes)
    && forall fk, k {:trigger nodes[k] in nodeids[fk]} :: fk in nodeids && 0 <= k < |nodes| ==>
      (nodes[k] in nodeids[fk] <==> keys[k] == Some(fk))
  }

  // One returned row goes to every parent waiting for its ID.
  method AssignRowTo(edge: Edge, nodes: seq<Entity>, neighbors: seq<Entity>, j: nat, nodeids: map<int, seq<Entity>>,
                     ghost keys: seq<Option<int>>, ghost ids: seq<int>, ghost before: seq<map<Edge, Entity>>)
    requires j < |neighbors| == |ids| && neighbors[j].id == ids[j]
    requires ids[j] in nodeids && WaitsFor(nodes, keys, nodeids)
    requires Referred(edge, nodes, neighbors, ids, j, keys, before)
    modifies nodes`singles
    ensures Referred(edge, nodes, neighbors, ids, j + 1, keys, before)
  {
    AssignSingle(edge, nodes, nodeids[neighbors[j].id], neighbors[j]);
    forall k | 0 <= k < |nodes|
      ensures nodes[k].singles == With(before[k], edge, Referenced(neighbors, ids, j + 1, keys[k]))
    {
      ReferencedStep(neighbors, ids, j, keys[k], before[k], edge);
    }
  }

  // The same, if anyone asked for the row.
  method AssignIfAsked(edge: Edge, nodes: seq<Entity>, neighbors: seq<Entity>, j: nat, nodeids: map<int, seq<Entity>>,
                       ghost keys: seq<Option<int>>, ghost ids: seq<int>, ghost before: seq<map<Edge, Entity>>)
    returns (known: bool)
    requires j < |neighbors| == |ids| && neighbors[j].id == ids[j] && WaitsFor(nodes, keys, nodeids)
    requires Referred(edge, nodes, neighbors, ids, j, keys, before)
    modifies nodes`singles
    ensures known <==> ids[j] in nodeids
    ensures known ==> Referred(edge, nodes, neighbors, ids, j + 1, keys, before)
  {
    known := neighbors[j].id in nodeids;
    if known {
      AssignRowTo(edge, nodes, neighbors, j, nodeids, keys, ids, before);
    }
  }

  // Somebody asked for each of the first j rows.
  ghost predicate Asked(ids: seq<int>, nodeids: map<int, seq<Entity>>, j: nat) {
    forall i :: 0 <= i < j && i < |ids| ==> ids[i] in nodeids
  }

  // Each returned row goes to every parent waiting for its ID.
  method AssignReferenced(edge: Edge, nodes: seq<Entity>, neighbors: seq<Entity>, nodeids: map<int, seq<Entity>>,
                          ghost keys: seq<Option<int>>, ghost ids: seq<int>, ghost before: seq<map<Edge, Entity>>)
    returns (outcome: Outcome)
    requires HaveIds(neighbors, ids) && WaitsFor(nodes, keys, nodeids)
    requires Referred(edge, nodes, neighbors, ids, 0, keys, before)
    modifies nodes`singles
    ensures outcome.Ok? || outcome.UnexpectedNode?
    ensures outcome.Ok? <==> Asked(ids, nodeids, |ids|)
    ensures outcome.Ok? ==> Referred(edge, nodes, neighbors, ids, |ids|, keys, before)
  {
    for j := 0 to |neighbors|
      invariant Asked(ids, nodeids, j)
      invariant Referred(edge, nodes, neighbors, ids, j, keys, before)
    {
      var known := AssignIfAsked(edge, nodes, neighbors, j, nodeids, keys, ids, before);
      if !known {
        return UnexpectedNode(neighbors[j].id);
      }
    }
    return Ok;
  }

  lemma KeyIndexMeans(nodes: seq<Entity>, keys: seq<Option<int>>, nodeids: map<int, seq<Entity>>)
    requires |nodes| == |keys| && Distinct(nodes) && KeyIndex(nodes, keys, |nodes|, nodeids)
    ensures WaitsFor(nodes, keys, nodeids)
    ensures forall fk :: fk in nodeids <==> fk in Wanted(keys, |keys|)
  {
    WantedExact(keys, |keys|);
    forall fk | fk in nodeids
      ensures forall a :: a in nodeids[fk] ==> a in nodes
      ensures forall k :: 0 <= k < |nodes| ==> (nodes[k] in nodeids[fk] <==> keys[k] == Some(fk))
    {
      WaitingExact(nodes, keys, |nodes|, fk);
    }
  }

  /**
   loadProxy and loadParent, once the keys have been asked for: each returned row goes to every parent that references
   it, and a row nobody asked for is an error.
   */
  method AssignToOne(edge: Edge, nodes: seq<Entity>, neighbors: seq<Entity>, nodeids: map<int, seq<Entity>>,
                     ghost keys: seq<Option<int>>, ghost ids: seq<int>)
    returns (outcome: Outcome)
    requires |nodes| == |keys| && Distinct(nodes) && KeyIndex(nodes, keys, |nodes|, nodeids) && HaveIds(neighbors, ids)
    modifies nodes`singles
    ensures outcome.Ok? || outcome.UnexpectedNode?
    ensures outcome.Ok? <==> forall j :: 0 <= j < |ids| ==> ids[j] in Wanted(keys, |keys|)
    ensures outcome.Ok? ==> forall k :: 0 <= k < |nodes| ==>
      nodes[k].singles == With(old(nodes[k].singles), edge, Referenced(neighbors, ids, |ids|, keys[k]))
  {
    KeyIndexMeans(nodes, keys, nodeids);
    ghost var before := seq(|nodes|, k requires 0 <= k < |nodes| reads nodes => nodes[k].singles);
    outcome := AssignReferenced(edge, nodes, neighbors, nodeids, keys, ids, before);
  }

  // Of the first n returned children, those whose key is the parent's ID, in row order.
  ghost function ChildrenOf<T>(neighbors: seq<T>, fks: seq<Option<int>>, n: nat, id: int): seq<T>
    requires n <= |fks| == |neighbors|
  {
    if n == 0 then []
    else if fks[n - 1] != Some(id) then ChildrenOf(neighbors, fks, n - 1, id)
    else ChildrenOf(neighbors, fks, n - 1, id) + [neighbors[n - 1]]
  }

  // Every one of the first n children names a parent of the index.
  ghost predicate AllKnown(fks: seq<Option<int>>, n: nat, known: set<int>)
    requires n <= |fks|
  {
    n == 0 || (AllKnown(fks, n - 1, known) && fks[n - 1].Some? && fks[n - 1].value in known)
  }

  lemma {:induction false} AllKnownMeans(fks: seq<Option<int>>, n: nat, known: set<int>)
    requires n <= |fks|
    ensures AllKnown(fks, n, known) <==> forall j :: 0 <= j < n ==> fks[j].Some? && fks[j].value in known
  {
    if n != 0 {
      AllKnownMeans(fks, n - 1, known);
    }
  }

  // What parent k receives when the index holds it under `owner`.
  ghost function OwnedChildren<T>(neighbors: seq<T>, fks: seq<Option<int>>, n: nat, owner: Option<int>): seq<T>
    requires n <= |fks| == |neighbors|
  {
    if owner.None? then [] else ChildrenOf(neighbors, fks, n, owner.value)
  }

  // The index's view of each parent: nodeids[fk] is parent k exactly when parent k is owned under fk.
  ghost predicate Owns(nodes: seq<Entity>, nodeids: map<int, Entity>, owned: seq<Option<int>>) {
    && |nodes| == |owned|
    && (forall fk :: fk in nodeids ==> nodeids[fk] in nodes)
    && forall fk, k :: fk in nodeids && 0 <= k < |nodes| ==> (nodeids[fk] == nodes[k] <==> owned[k] == Some(fk))
  }

  // One child goes to the parent the index holds for its key.
  method AssignChild(edge: Edge, column: Column, nodes: seq<Entity>, n: Entity, nodeids: map<int, Entity>,
                     ghost owned: seq<Option<int>>)
    returns (outcome: Outcome)
    requires Owns(nodes, nodeids, owned)
    modifies nodes`lists
    ensures outcome == match KeyIn(n.scalars, column)
      case None => NilForeignKey(n.id)
      case Some(fk) => if fk in nodeids then Ok else UnexpectedNode(fk)
    ensures outcome.Ok? ==> forall k :: 0 <= k < |nodes| ==>
      nodes[k].lists == if owned[k] == KeyIn(n.scalars, column)
        then old(nodes[k].lists)[edge := old(nodes[k].List(edge)) + [n]]
                        else old(nodes[k].lists)
  {
    var fk := KeyIn(n.scalars, column);
    if fk.None? {
      return NilForeignKey(n.id);
    }
    if fk.value !in nodeids {
      return UnexpectedNode(fk.value);
    }
    var node := nodeids[fk.value];
    assert node in nodes;
    node.lists := node.lists[edge := node.List(edge) + [n]];
    return Ok;
  }

  // The lists after the first j children.
  ghost predicate Dealt(edge: Edge, nodes: seq<Entity>, neighbors: seq<Entity>, fks: seq<Option<int>>, j: nat,
                        owned: seq<Option<int>>, before: seq<map<Edge, seq<Entity>>>)
    requires j <= |fks| == |neighbors|
    reads nodes`lists
  {
    |nodes| == |owned| == |before| && forall k :: 0 <= k < |nodes| ==>
      nodes[k].lists == before[k][edge := OwnedChildren(neighbors, fks, j, owned[k])]
  }

  lemma OwnedStep(neighbors: seq<Entity>, fks: seq<Option<int>>, j: nat, owner: Option<int>)
    requires j < |fks| == |neighbors| && fks[j].Some?
    ensures OwnedChildren(neighbors, fks, j + 1, owner) ==
      if owner == fks[j] then OwnedChildren(neighbors, fks, j, owner) + [neighbors[j]]
      else OwnedChildren(neighbors, fks, j, owner)
  {}

  method AssignNth(edge: Edge, column: Column, nodes: seq<Entity>, neighbors: seq<Entity>, j: nat,
                   nodeids: map<int, Entity>, ghost owned: seq<Option<int>>, ghost fks: seq<Option<int>>,
                   ghost before: seq<map<Edge, seq<Entity>>>)
    returns (outcome: Outcome)
    requires Owns(nodes, nodeids, owned) && HaveKeys(neighbors, column, fks) && j < |neighbors|
    requires Dealt(edge, nodes, neighbors, fks, j, owned, before)
    modifies nodes`lists
    ensures outcome.Ok? <==> fks[j].Some? && fks[j].value in nodeids
    ensures outcome.Ok? || (outcome.NilForeignKey? && fks[j].None?)
      || (outcome.UnexpectedNode? && fks[j] == Some(outcome.id) && outcome.id !in nodeids)
    ensures outcome.Ok? ==> Dealt(edge, nodes, neighbors, fks, j + 1, owned, before)
  {
    outcome := AssignChild(edge, column, nodes, neighbors[j], nodeids, owned);
    if outcome.Ok? {
      forall k | 0 <= k < |nodes|
        ensures nodes[k].lists == before[k][edge := OwnedChildren(neighbors, fks, j + 1, owned[k])]
      {
        var had := OwnedChildren(neighbors, fks, j, owned[k]);
        OwnedStep(neighbors, fks, j, owned[k]);
        Overwrite(before[k], edge, had, had + [neighbors[j]]);
      }
    }
  }

  // Each child goes to exactly the parent its key names, in row order.
  method AssignChildren(edge: Edge, column: Column, nodes: seq<Entity>, neighbors: seq<Entity>,
                        nodeids: map<int, Entity>, ghost owned: seq<Option<int>>, ghost fks: seq<Option<int>>,
                        ghost before: seq<map<Edge, seq<Entity>>>)
    returns (outcome: Outcome)
    requires Owns(nodes, nodeids, owned) && HaveKeys(neighbors, column, fks)
    requires Dealt(edge, nodes, neighbors, fks, 0, owned, before)
    modifies nodes`lists
    ensures outcome.Ok? <==> AllKnown(fks, |fks|, nodeids.Keys)
    ensures outcome.NilForeignKey? ==> None in fks
    ensures outcome.UnexpectedNode? ==> outcome.id !in nodeids && Some(outcome.id) in fks
    ensures outcome.Ok? || outcome.NilForeignKey? || outcome.UnexpectedNode?
    ensures outcome.Ok? ==> Dealt(edge, nodes, neighbors, fks, |fks|, owned, before)
  {
    for j := 0 to |neighbors|
      invariant AllKnown(fks, j, nodeids.Keys)
      invariant Dealt(edge, nodes, neighbors, fks, j, owned, before)
    {
      outcome := AssignNth(edge, column, nodes, neighbors, j, nodeids, owned, fks, before);
      if !outcome.Ok? {
        AllKnownMeans(fks, |fks|, nodeids.Keys);
        assert fks[j] in fks;
        return;
      }
    }
    return Ok;
  }

  // The ID under which the index holds parent k; None when a later parent took it.
  ghost function Owned(ids: seq<int>): seq<Option<int>> {
    seq(|ids|, k requires 0 <= k < |ids| => if IsLast(ids, k) then Some(ids[k]) else None)
  }

  lemma IndexedMeans(nodes: seq<Entity>, ids: seq<int>, byID: map<int, Entity>)
    requires |nodes| == |ids| && Distinct(nodes) && Indexed(nodes, ids, |nodes|, byID)
    ensures Owns(nodes, byID, Owned(ids))
    ensures forall id :: id in byID <==> id in ids
  {
    forall id ensures id in byID <==> id in ids {
      LastAtIsLast(ids, |ids|, id);
      if id in ids {
        var k :| 0 <= k < |ids| && ids[k] == id;
      }
    }
    forall fk, k | fk in byID && 0 <= k < |nodes| ensures byID[fk] == nodes[k] <==> Owned(ids)[k] == Some(fk) {
      LastAtIsLast(ids, |ids|, fk);
      assert byID[fk] == nodes[k] <==> LastAt(ids, |ids|, fk) == k;
    }
  }
}
