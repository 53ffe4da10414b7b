/**
 sqlAll of backend/ent/account_query.go (lines 621-712) with its edges, run recursively: the queries of the parent and
 children edges are runs of their own. Each block of sqlAll is a method; the loaders are those of EagerLoading.
 */
module AccountQuery {
  import opened Wrappers
  import opened Accounts
  import opened JoinSpec
  import opened EagerLoading
  import opened ColumnSelection
  import opened QuerySpec

  lemma DecodedKey(e: Entity, columns: seq<Column>, record: Record, column: Column, unmarshal: Unmarshal)
    requires Decoded(e, columns, record, unmarshal) && column in columns && column in {ProxyID, ParentAccountID}
    requires WellTyped(record)
    ensures KeyIn(e.scalars, column) == RecordKey(record, column)
  {
    assert Field(e.scalars, column) == record(column).Scalar();
    match record(column)
    case NullInt64(None) =>
    case NullInt64(Some(_)) =>
  }

  lemma DecodedKeys(es: seq<Entity>, columns: seq<Column>, records: seq<Record>, column: Column, unmarshal: Unmarshal)
    requires AllDecoded(es, columns, records, unmarshal) && column in columns && column in {ProxyID, ParentAccountID}
    requires forall r :: r in records ==> WellTyped(r)
    ensures HaveKeys(es, column, RecordKeys(records, column))
  {
    forall k | 0 <= k < |es| ensures KeyIn(es[k].scalars, column) == RecordKey(records[k], column) {
      assert records[k] in records;
      DecodedKey(es[k], columns, records[k], column, unmarshal);
    }
  }

  lemma DecodedIds(es: seq<Entity>, columns: seq<Column>, records: seq<Record>, unmarshal: Unmarshal)
    requires AllDecoded(es, columns, records, unmarshal)
    ensures HaveIds(es, RecordIds(records))
  {}

  lemma DistinctIds(es: seq<Entity>, ids: seq<int>)
    requires HaveIds(es, ids) && Distinct(ids)
    ensures Distinct(es)
  {
    forall i, j | 0 <= i < j < |es| ensures es[i] != es[j] {
      assert es[i].id == ids[i] && es[j].id == ids[j];
    }
  }

  // The nodes' own content, on the heap.
  ghost predicate NodesScanned(level: Level, db: Database, nodes: seq<Entity>, unmarshal: Unmarshal)
    reads nodes`id, nodes`scalars, nodes`documents, nodes`selectValues, nodes`loadedTypes
  {
    && AllDecoded(nodes, level.Columns(), level.Records(db), unmarshal)
    && Distinct(nodes) && forall k :: 0 <= k < |nodes| ==> nodes[k].loadedTypes == level.plan.Edges()
  }

  // The neighbours of a join edge, on the heap.
  ghost predicate JoinScanned(selection: Option<seq<Column>>, rows: seq<JoinRow>, neighbors: seq<Entity>,
                              unmarshal: Unmarshal)
    reads neighbors`id, neighbors`scalars, neighbors`documents, neighbors`selectValues
  {
    && Distinct(neighbors)
    && if selection.Some? then BuiltFrom(selection.value, rows, neighbors, Sources(Links(rows)), unmarshal)
       else neighbors == []
  }

  ghost predicate ProxyScanned(level: Level, db: Database, neighbors: seq<Entity>, unmarshal: Unmarshal)
    reads neighbors`id, neighbors`scalars, neighbors`documents, neighbors`selectValues
  {
    && Distinct(neighbors)
    && if level.AsksProxy(db) then AllDecoded(neighbors, level.plan.proxy.value, level.Proxy(db), unmarshal)
       else neighbors == []
  }

  // The main query: nothing of its edges yet.
  method ScanNodes(level: Level, db: Database, unmarshal: Unmarshal) returns (err: DecodeError, nodes: seq<Entity>)
    requires db.Valid()
    ensures err.NoError? <==> AllDecodable(level.Columns(), level.Records(db), unmarshal)
    ensures Entered(nodes, level.plan.Edges()) && forall e :: e in nodes ==> fresh(e)
    ensures err.NoError? ==> NodesScanned(level, db, nodes, unmarshal)
  {
    var columns := SpecColumns(level.fields, level.plan.proxy.Some?, level.plan.parent.Some?);
    err, nodes := ScanEntities(level.plan.Edges(), columns, level.Records(db), unmarshal);
    if err.NoError? {
      forall k | 0 <= k < |nodes| ensures nodes[k].loadedTypes == level.plan.Edges() {
        assert nodes[k] in nodes;
      }
    }
  }

  // One `if query := ...; query != nil` block, for a join edge.
  method FillJoin(edge: Edge, selection: Option<seq<Column>>, level: Level, db: Database,
                  fetch: seq<int> -> seq<JoinRow>, nodes: seq<Entity>, unmarshal: Unmarshal)
    returns (outcome: Outcome, neighbors: seq<Entity>)
    requires NodesScanned(level, db, nodes, unmarshal) && (selection.Some? ==> StartsWithId(selection.value))
    requires forall row :: row in fetch(level.Ids(db)) ==> WellTyped(row.record)
    modifies nodes`lists
    ensures forall e :: e in neighbors ==> fresh(e)
    ensures outcome.DecodeFailed? <==> !JoinReadable(selection, fetch(level.Ids(db)), unmarshal)
    ensures !outcome.DecodeFailed? ==>
      (outcome.Ok? <==> (selection.Some? ==> OwnersKnown(fetch(level.Ids(db)), level.Ids(db))))
    ensures outcome.Ok? ==> JoinScanned(selection, fetch(level.Ids(db)), neighbors, unmarshal)
    ensures outcome.Ok? ==> forall k :: 0 <= k < |nodes| ==>
      nodes[k].lists ==
      With(old(nodes[k].lists), edge, JoinList(selection, fetch(level.Ids(db)), neighbors, level.Ids(db), k))
  {
    if selection.None? {
      return Ok, [];
    }
    DecodedIds(nodes, level.Columns(), level.Records(db), unmarshal);
    outcome, neighbors := LoadToMany(edge, nodes, selection.value, fetch, unmarshal, level.Ids(db));
    if outcome.Ok? {
      FirstIdsExact(Links(fetch(level.Ids(db))));
      DistinctIds(neighbors, FirstIds(Links(fetch(level.Ids(db)))));
    }
  }

  // The block of the groups edge.
  method FillGroups(level: Level, db: Database, nodes: seq<Entity>, unmarshal: Unmarshal)
    returns (outcome: Outcome, neighbors: seq<Entity>)
    requires level.plan.Valid() && db.Valid() && NodesScanned(level, db, nodes, unmarshal)
    modifies nodes`lists
    ensures forall e :: e in neighbors ==> fresh(e)
    ensures Ended(outcome, level, GroupsEdge, db, unmarshal)
    ensures outcome.Ok? ==> JoinScanned(level.plan.groups, level.Groups(db), neighbors, unmarshal)
    ensures outcome.Ok? ==> forall k :: 0 <= k < |nodes| ==>
      nodes[k].lists ==
      With(old(nodes[k].lists), GroupsEdge, JoinList(level.plan.groups, level.Groups(db), neighbors, level.Ids(db), k))
  {
    outcome, neighbors := FillJoin(GroupsEdge, level.plan.groups, level, db,
                                   (ids: seq<int>) => db.joins(level.path + [GroupsEdge], ids), nodes, unmarshal);
  }

  // The block of the proxies edge.
  method FillProxies(level: Level, db: Database, nodes: seq<Entity>, unmarshal: Unmarshal)
    returns (outcome: Outcome, neighbors: seq<Entity>)
    requires level.plan.Valid() && db.Valid() && NodesScanned(level, db, nodes, unmarshal)
    modifies nodes`lists
    ensures forall e :: e in neighbors ==> fresh(e)
    ensures Ended(outcome, level, ProxiesEdge, db, unmarshal)
    ensures outcome.Ok? ==> JoinScanned(level.plan.proxies, level.Proxies(db), neighbors, unmarshal)
    ensures outcome.Ok? ==> forall k :: 0 <= k < |nodes| ==>
      nodes[k].lists ==
      With(old(nodes[k].lists), ProxiesEdge,
           JoinList(level.plan.proxies, level.Proxies(db), neighbors, level.Ids(db), k))
  {
    outcome, neighbors := FillJoin(ProxiesEdge, level.plan.proxies, level, db,
                                   (ids: seq<int>) => db.joins(level.path + [ProxiesEdge], ids), nodes, unmarshal);
  }

  ghost predicate EdgeOk(level: Level, e: Edge, db: Database, unmarshal: Unmarshal) {
    EdgeReadable(level, e, db, unmarshal) && EdgeHonest(level, e, db)
  }

  // How the load of one edge fails.
  ghost predicate FailsAt(outcome: Outcome, level: Level, e: Edge, db: Database, unmarshal: Unmarshal) {
    && !outcome.Ok? && (outcome.DecodeFailed? ==> !EdgeReadable(level, e, db, unmarshal))
    && (!outcome.DecodeFailed? ==> !EdgeHonest(level, e, db))
  }

  // How it ends: well exactly if its rows can be decoded and respect what was asked for.
  ghost predicate Ended(outcome: Outcome, level: Level, e: Edge, db: Database, unmarshal: Unmarshal) {
    if outcome.Ok? then EdgeOk(level, e, db, unmarshal) else FailsAt(outcome, level, e, db, unmarshal)
  }

  // The keys of a requested to-one edge, as the loader reads them.
  lemma NodesHaveKeys(level: Level, db: Database, nodes: seq<Entity>, column: Column, unmarshal: Unmarshal)
    requires db.Valid() && NodesScanned(level, db, nodes, unmarshal)
    requires (column == ProxyID && level.plan.proxy.Some?) || (column == ParentAccountID && level.plan.parent.Some?)
    ensures HaveKeys(nodes, column, level.Keys(db, column))
  {
    KeysAreSelected(level.fields, level.plan.proxy.Some?, level.plan.parent.Some?);
    DecodedKeys(nodes, level.Columns(), level.Records(db), column, unmarshal);
  }

  // The first half of loadProxy and loadParent: the keys to ask for, and who waits for which.
  method AskKeys(level: Level, db: Database, nodes: seq<Entity>, column: Column, ghost unmarshal: Unmarshal)
    returns (ids: seq<int>, nodeids: map<int, seq<Entity>>)
    requires db.Valid() && NodesScanned(level, db, nodes, unmarshal)
    requires (column == ProxyID && level.plan.proxy.Some?) || (column == ParentAccountID && level.plan.parent.Some?)
    ensures ids == level.Asked(db, column) && KeyIndex(nodes, level.Keys(db, column), |nodes|, nodeids)
  {
    NodesHaveKeys(level, db, nodes, column, unmarshal);
    ids, nodeids := IndexByKey(column, nodes, level.Keys(db, column));
  }

  // The block of the proxy edge: loadProxy runs no query when no node has a key.
  method FillProxy(level: Level, db: Database, nodes: seq<Entity>, unmarshal: Unmarshal)
    returns (outcome: Outcome, neighbors: seq<Entity>)
    requires level.plan.Valid() && db.Valid() && NodesScanned(level, db, nodes, unmarshal)
    modifies nodes`singles
    ensures forall e :: e in neighbors ==> fresh(e)
    ensures Ended(outcome, level, ProxyEdge, db, unmarshal)
    ensures outcome.Ok? ==> ProxyScanned(level, db, neighbors, unmarshal)
    ensures outcome.Ok? ==> forall k :: 0 <= k < |nodes| ==>
      nodes[k].singles == With(old(nodes[k].singles), ProxyEdge, ProxyOf(level, db, neighbors, k))
  {
    if level.plan.proxy.None? {
      return Ok, [];
    }
    var ids, nodeids := AskKeys(level, db, nodes, ProxyID, unmarshal);
    if |ids| == 0 {
      return Ok, [];
    }
    var records := db.rows(level.path + [ProxyEdge], ids);
    var err;
    err, neighbors := ScanEntities({}, level.plan.proxy.value, records, unmarshal);
    if !err.NoError? {
      return DecodeFailed(err), neighbors;
    }
    DecodedIds(neighbors, level.plan.proxy.value, records, unmarshal);
    outcome := AssignToOne(ProxyEdge, nodes, neighbors, nodeids, level.Keys(db, ProxyID), RecordIds(records));
  }

  lemma OwnIsCurrent(run: Run)
    requires run.Separate() && Current(run.whole)
    ensures Current(run.state)
  {
    forall e | e in run.state.Keys ensures ContentOf(e) == run.state[e] {
      assert e in run.whole && run.whole[e] == run.state[e];
    }
  }

  // What the state says of decoded entities, the heap shows.
  lemma DecodedShows(state: State, es: seq<Entity>, columns: seq<Column>, records: seq<Record>, unmarshal: Unmarshal)
    requires Current(state) && AllDecodedAs(state, es, columns, records, unmarshal)
    ensures AllDecoded(es, columns, records, unmarshal)
  {
    forall j | 0 <= j < |es| ensures Decoded(es[j], columns, records[j], unmarshal) {
      assert ContentOf(es[j]) == state[es[j]];
    }
  }

  lemma RunShows(run: Run, level: Level, db: Database, unmarshal: Unmarshal)
    requires RunLoaded(run, level, db, unmarshal) && Current(run.whole)
    ensures AllDecoded(run.nodes, level.Columns(), level.Records(db), unmarshal)
  {
    if level.Records(db) != [] {
      OwnIsCurrent(run);
      DecodedShows(run.state, run.nodes, level.Columns(), level.Records(db), unmarshal);
    }
  }

  // The nodes of a run carry the IDs and keys of its rows.
  lemma RunHasIds(run: Run, level: Level, db: Database, unmarshal: Unmarshal)
    requires RunLoaded(run, level, db, unmarshal) && Current(run.whole)
    ensures HaveIds(run.nodes, level.Ids(db))
  {
    RunShows(run, level, db, unmarshal);
    DecodedIds(run.nodes, level.Columns(), level.Records(db), unmarshal);
  }

  lemma RunHasParentKeys(run: Run, level: Level, db: Database, unmarshal: Unmarshal)
    requires db.Valid() && RunLoaded(run, level, db, unmarshal) && Current(run.whole)
    requires level.fields == [] || ParentAccountID in level.fields
    ensures HaveKeys(run.nodes, ParentAccountID, RecordKeys(level.Records(db), ParentAccountID))
  {
    RunShows(run, level, db, unmarshal);
    KeysAreSelected(level.fields, level.plan.proxy.Some?, level.plan.parent.Some?);
    DecodedKeys(run.nodes, level.Columns(), level.Records(db), ParentAccountID, unmarshal);
  }

  // loadParent's second half: the nodes of the nested query go to the nodes that reference them.
  method LinkParents(level: Level, db: Database, nodes: seq<Entity>, neighbors: seq<Entity>,
                     nodeids: map<int, seq<Entity>>, ghost rest: State)
    returns (outcome: Outcome)
    requires Current(rest) && forall n :: n in nodes ==> n !in rest
    requires level.plan.parent.Some? && HaveIds(neighbors, level.Parent(db).Ids(db))
    requires Distinct(nodes) && |nodes| == |level.Records(db)|
    requires KeyIndex(nodes, level.Keys(db, ParentAccountID), |nodes|, nodeids)
    modifies nodes`singles
    ensures Current(rest)
    ensures outcome.Ok? || outcome.UnexpectedNode?
    ensures outcome.Ok? <==> OnlyAsked(level.Parent(db).Records(db), level.Asked(db, ParentAccountID))
    ensures outcome.Ok? ==> forall k :: 0 <= k < |nodes| ==>
      nodes[k].singles == With(old(nodes[k].singles), ParentEdge,
                               KeyEntity(level.Parent(db).Records(db), neighbors, level.Keys(db, ParentAccountID)[k]))
  {
    outcome := AssignToOne(ParentEdge, nodes, neighbors, nodeids, level.Keys(db, ParentAccountID),
                           level.Parent(db).Ids(db));
  }

  // The neighbours are the nodes of this loaded run, and the heap holds it.
  ghost predicate Succeeded(run: Run, level: Level, db: Database, unmarshal: Unmarshal, neighbors: seq<Entity>)
    reads run.whole.Keys
  {
    neighbors == run.nodes && RunLoaded(run, level, db, unmarshal) && Current(run.whole)
  }

  // How a run ends.
  ghost predicate RunEnded(outcome: Outcome, level: Level, db: Database, unmarshal: Unmarshal) {
    && (outcome.Ok? <==> Readable(level, db, unmarshal) && Honest(level, db))
    && (outcome.DecodeFailed? ==> !Readable(level, db, unmarshal))
    && (!outcome.Ok? && !outcome.DecodeFailed? ==> !Honest(level, db))
  }

  method RunParents(level: Level, db: Database, ids: seq<int>, unmarshal: Unmarshal)
    returns (outcome: Outcome, neighbors: seq<Entity>, ghost run: Run)
    requires level.plan.Valid() && db.Valid() && level.plan.parent.Some? && ids == level.Asked(db, ParentAccountID)
    ensures forall e :: e in run.whole.Keys ==> fresh(e)
    ensures RunEnded(outcome, level.Parent(db), db, unmarshal)
    ensures outcome.Ok? ==> Succeeded(run, level.Parent(db), db, unmarshal, neighbors)
    ensures outcome.Ok? ==> HaveIds(neighbors, level.Parent(db).Ids(db))
    decreases level.plan, 0
  {
    var plan := level.plan.parent.value;
    outcome, neighbors, run := SqlAll(Level(plan.fields, plan, level.path + [ParentEdge], ids), db, unmarshal);
    if outcome.Ok? {
      RunHasIds(run, level.Parent(db), db, unmarshal);
    }
  }

  // loadParent, once it knows the keys to ask for.
  method LoadParents(level: Level, db: Database, nodes: seq<Entity>, ids: seq<int>, nodeids: map<int, seq<Entity>>,
                     unmarshal: Unmarshal)
    returns (outcome: Outcome, ghost run: Run)
    requires level.plan.Valid() && db.Valid() && NodesScanned(level, db, nodes, unmarshal)
    requires level.plan.parent.Some? && ids == level.Asked(db, ParentAccountID)
    requires KeyIndex(nodes, level.Keys(db, ParentAccountID), |nodes|, nodeids)
    modifies nodes`singles
    ensures forall e :: e in run.whole.Keys ==> fresh(e)
    ensures outcome.Ok? <==>
      && Readable(level.Parent(db), db, unmarshal) && Honest(level.Parent(db), db)
      && OnlyAsked(level.Parent(db).Records(db), level.Asked(db, ParentAccountID))
    ensures outcome.DecodeFailed? ==> !Readable(level.Parent(db), db, unmarshal)
    ensures !outcome.Ok? && !outcome.DecodeFailed? ==>
      !(Honest(level.Parent(db), db) && OnlyAsked(level.Parent(db).Records(db), level.Asked(db, ParentAccountID)))
    ensures outcome.Ok? ==> Succeeded(run, level.Parent(db), db, unmarshal, run.nodes)
    ensures outcome.Ok? ==> forall k :: 0 <= k < |nodes| ==>
      nodes[k].singles == With(old(nodes[k].singles), ParentEdge, ParentOf(level, db, Some(run), k))
    decreases level.plan, 1
  {
    var neighbors;
    outcome, neighbors, run := RunParents(level, db, ids, unmarshal);
    if outcome.Ok? {
      outcome := LinkParents(level, db, nodes, neighbors, nodeids, run.whole);
    }
  }

  // The block of the parent edge: a run of its own for the keys of the nodes, if there are any.
  method FillParent(level: Level, db: Database, nodes: seq<Entity>, unmarshal: Unmarshal)
    returns (outcome: Outcome, ghost run: Option<Run>)
    requires level.plan.Valid() && db.Valid() && NodesScanned(level, db, nodes, unmarshal)
    modifies nodes`singles
    ensures run.Some? ==> forall e :: e in run.value.whole.Keys ==> fresh(e)
    ensures Ended(outcome, level, ParentEdge, db, unmarshal)
    ensures outcome.Ok? ==> (run.Some? <==> level.AsksParent(db))
    ensures outcome.Ok? && run.Some? ==> Succeeded(run.value, level.Parent(db), db, unmarshal, run.value.nodes)
    ensures outcome.Ok? ==> forall k :: 0 <= k < |nodes| ==>
      nodes[k].singles == With(old(nodes[k].singles), ParentEdge, ParentOf(level, db, run, k))
    decreases level.plan, 2
  {
    if level.plan.parent.None? {
      return Ok, None;
    }
    var ids, nodeids := AskKeys(level, db, nodes, ParentAccountID, unmarshal);
    if |ids| == 0 {
      return Ok, None;
    }
    ghost var sub;
    outcome, sub := LoadParents(level, db, nodes, ids, nodeids, unmarshal);
    run := Some(sub);
  }

  // loadChildren's second half: each node of the nested query goes to the node it references.
  method LinkChildren(level: Level, db: Database, nodes: seq<Entity>, neighbors: seq<Entity>, nodeids: map<int, Entity>,
                      ghost before: seq<map<Edge, seq<Entity>>>, ghost rest: State)
    returns (outcome: Outcome)
    requires Current(rest) && forall n :: n in nodes ==> n !in rest
    requires level.plan.children.Some? && |nodes| == |level.Records(db)| == |before|
    requires HaveKeys(neighbors, ParentAccountID, RecordKeys(level.Children(db).Records(db), ParentAccountID))
    requires Owns(nodes, nodeids, Owned(level.Ids(db))) && nodeids.Keys == set id | id in level.Ids(db)
    requires forall k :: 0 <= k < |nodes| ==> nodes[k].lists == before[k][ChildrenEdge := []]
    modifies nodes`lists
    ensures Current(rest)
    ensures outcome.Ok? || outcome.UnexpectedNode? || outcome.NilForeignKey?
    ensures outcome.Ok? <==> KnownChildren(level, db)
    ensures outcome.Ok? ==> forall k :: 0 <= k < |nodes| ==>
      nodes[k].lists == before[k][ChildrenEdge :=
        ChildList(level.Children(db).Records(db), neighbors, level.Ids(db), k)]
  {
    outcome := AssignChildren(ChildrenEdge, ParentAccountID, nodes, neighbors, nodeids, Owned(level.Ids(db)),
                              RecordKeys(level.Children(db).Records(db), ParentAccountID), before);
  }

  method RunChildren(level: Level, db: Database, ids: seq<int>, unmarshal: Unmarshal)
    returns (outcome: Outcome, neighbors: seq<Entity>, ghost run: Run)
    requires level.plan.Valid() && db.Valid() && level.plan.children.Some? && ids == level.Ids(db)
    ensures forall e :: e in run.whole.Keys ==> fresh(e)
    ensures RunEnded(outcome, level.Children(db), db, unmarshal)
    ensures outcome.Ok? ==> Succeeded(run, level.Children(db), db, unmarshal, neighbors)
    ensures outcome.Ok? ==>
      HaveKeys(neighbors, ParentAccountID, RecordKeys(level.Children(db).Records(db), ParentAccountID))
    decreases level.plan, 0
  {
    var plan := level.plan.children.value;
    var fields := if |plan.fields| > 0 then AppendOnce(plan.fields, ParentAccountID) else plan.fields;
    outcome, neighbors, run := SqlAll(Level(fields, plan, level.path + [ChildrenEdge], ids), db, unmarshal);
    if outcome.Ok? {
      RunHasParentKeys(run, level.Children(db), db, unmarshal);
    }
  }

  // loadChildren's first half: index the nodes by ID and reset the edge.
  method IndexNodes(level: Level, db: Database, nodes: seq<Entity>, ghost unmarshal: Unmarshal,
                    ghost before: seq<map<Edge, seq<Entity>>>)
    returns (fks: seq<int>, nodeids: map<int, Entity>)
    requires NodesScanned(level, db, nodes, unmarshal) && ResetSoFar(ChildrenEdge, nodes, 0, before)
    modifies nodes`lists
    ensures fks == level.Ids(db)
    ensures Owns(nodes, nodeids, Owned(level.Ids(db))) && nodeids.Keys == set id | id in level.Ids(db)
    ensures ResetSoFar(ChildrenEdge, nodes, |nodes|, before)
  {
    DecodedIds(nodes, level.Columns(), level.Records(db), unmarshal);
    fks, nodeids := IndexAndReset(ChildrenEdge, nodes, level.Ids(db), before);
    IndexedMeans(nodes, level.Ids(db), nodeids);
    assert forall id :: id in nodeids.Keys <==> id in level.Ids(db);
  }

  // loadChildren.
  method LoadChildren(level: Level, db: Database, nodes: seq<Entity>, unmarshal: Unmarshal)
    returns (outcome: Outcome, ghost run: Run)
    requires level.plan.Valid() && db.Valid() && NodesScanned(level, db, nodes, unmarshal) && level.plan.children.Some?
    modifies nodes`lists
    ensures forall e :: e in run.whole.Keys ==> fresh(e)
    ensures outcome.Ok? <==>
      Readable(level.Children(db), db, unmarshal) && Honest(level.Children(db), db) && KnownChildren(level, db)
    ensures outcome.DecodeFailed? ==> !Readable(level.Children(db), db, unmarshal)
    ensures !outcome.Ok? && !outcome.DecodeFailed? ==> !(Honest(level.Children(db), db) && KnownChildren(level, db))
    ensures outcome.Ok? ==> Succeeded(run, level.Children(db), db, unmarshal, run.nodes)
    ensures outcome.Ok? ==> |run.nodes| == |level.Children(db).Records(db)|
    ensures outcome.Ok? ==> forall k :: 0 <= k < |nodes| ==>
      nodes[k].lists ==
      old(nodes[k].lists)[ChildrenEdge := ChildList(level.Children(db).Records(db), run.nodes, level.Ids(db), k)]
    decreases level.plan, 1
  {
    ghost var before := seq(|nodes|, k requires 0 <= k < |nodes| reads nodes => nodes[k].lists);
    var fks, nodeids := IndexNodes(level, db, nodes, unmarshal, before);
    var neighbors;
    outcome, neighbors, run := RunChildren(level, db, fks, unmarshal);
    if outcome.Ok? {
      outcome := LinkChildren(level, db, nodes, neighbors, nodeids, before, run.whole);
    }
  }

  // The block of the children edge: a run of its own for the IDs of the nodes.
  method FillChildren(level: Level, db: Database, nodes: seq<Entity>, unmarshal: Unmarshal)
    returns (outcome: Outcome, ghost run: Option<Run>)
    requires level.plan.Valid() && db.Valid() && NodesScanned(level, db, nodes, unmarshal)
    modifies nodes`lists
    ensures run.Some? ==> forall e :: e in run.value.whole.Keys ==> fresh(e)
    ensures Ended(outcome, level, ChildrenEdge, db, unmarshal)
    ensures outcome.Ok? ==> (run.Some? <==> level.plan.children.Some?)
    ensures outcome.Ok? && run.Some? ==> Succeeded(run.value, level.Children(db), db, unmarshal, run.value.nodes)
    ensures outcome.Ok? && run.Some? ==> |run.value.nodes| == |level.Children(db).Records(db)|
    ensures outcome.Ok? && run.Some? ==> forall k :: 0 <= k < |nodes| ==>
      nodes[k].lists ==
      old(nodes[k].lists)[ChildrenEdge := ChildList(level.Children(db).Records(db), run.value.nodes, level.Ids(db), k)]
    ensures outcome.Ok? && run.None? ==> forall k :: 0 <= k < |nodes| ==> nodes[k].lists == old(nodes[k].lists)
    decreases level.plan, 2
  {
    if level.plan.children.None? {
      return Ok, None;
    }
    ghost var sub;
    outcome, sub := LoadChildren(level, db, nodes, unmarshal);
    run := Some(sub);
  }

  // The state holds these entities as they are on the heap.
  ghost predicate Frozen(es: seq<Entity>, state: State)
    reads es
  {
    forall e :: e in es ==> e in state && state[e] == ContentOf(e)
  }

  lemma DecodedStays(es: seq<Entity>, state: State, columns: seq<Column>, records: seq<Record>, unmarshal: Unmarshal)
    requires Frozen(es, state) && AllDecoded(es, columns, records, unmarshal)
    ensures AllDecodedAs(state, es, columns, records, unmarshal)
  {
    forall j | 0 <= j < |es| ensures es[j] in state && DecodedAs(state[es[j]], columns, records[j], unmarshal) {
      assert es[j] in es;
    }
  }

  lemma JoinStays(es: seq<Entity>, state: State, selection: Option<seq<Column>>, rows: seq<JoinRow>,
                  unmarshal: Unmarshal)
    requires Frozen(es, state) && JoinScanned(selection, rows, es, unmarshal)
    ensures JoinBuilt(state, selection, rows, es, unmarshal)
  {
    if selection.Some? {
      forall j | 0 <= j < |es|
        ensures es[j] in state && DecodedAs(state[es[j]], selection.value, FirstRecords(rows)[j], unmarshal)
      {
        assert es[j] in es;
        assert FirstRecords(rows)[j] == rows[Sources(Links(rows))[j]].record;
      }
    }
  }

  lemma ProxyStays(es: seq<Entity>, state: State, level: Level, db: Database, unmarshal: Unmarshal)
    requires Frozen(es, state) && ProxyScanned(level, db, es, unmarshal)
    ensures ProxyBuilt(state, level, db, es, unmarshal)
  {
    if level.AsksProxy(db) {
      DecodedStays(es, state, level.plan.proxy.value, level.Proxy(db), unmarshal);
    }
  }

  ghost function ContentsOf(es: seq<Entity>): State
    reads es
  {
    map e | e in es :: ContentOf(e)
  }

  // The neighbours in other tables, with their contents.
  datatype Foreign = Foreign(groups: seq<Entity>, proxy: seq<Entity>, proxies: seq<Entity>, state: State)

  ghost predicate ForeignApart(f: Foreign) {
    && (forall e :: e in f.groups ==> e !in f.proxy && e !in f.proxies)
    && forall e :: e in f.proxy ==> e !in f.proxies
  }

  ghost predicate ForeignBuilt(f: Foreign, level: Level, db: Database, unmarshal: Unmarshal) {
    && JoinBuilt(f.state, level.plan.groups, level.Groups(db), f.groups, unmarshal)
    && ProxyBuilt(f.state, level, db, f.proxy, unmarshal)
    && JoinBuilt(f.state, level.plan.proxies, level.Proxies(db), f.proxies, unmarshal)
  }

  ghost predicate ForeignSet(f: Foreign, level: Level, db: Database, nodes: seq<Entity>, unmarshal: Unmarshal)
    requires ForeignBuilt(f, level, db, unmarshal) && |nodes| == |level.Records(db)|
    reads nodes`lists, nodes`singles
  {
    forall k :: 0 <= k < |nodes| ==>
      && nodes[k].lists == JoinLists(f.groups, f.proxies, level, db, k)
      && nodes[k].singles == With(map[], ProxyEdge, ProxyOf(level, db, f.proxy, k))
  }

  // The state holds all that rest holds.
  ghost predicate Extends(rest: State, state: State) { forall e :: e in rest ==> e in state && state[e] == rest[e] }

  // More content in the state does not matter.
  lemma DecodedExtends(rest: State, state: State, es: seq<Entity>, columns: seq<Column>, records: seq<Record>,
                       unmarshal: Unmarshal)
    requires Extends(rest, state) && AllDecodedAs(rest, es, columns, records, unmarshal)
    ensures AllDecodedAs(state, es, columns, records, unmarshal)
  {}

  lemma JoinExtends(rest: State, state: State, selection: Option<seq<Column>>, rows: seq<JoinRow>, es: seq<Entity>,
                    unmarshal: Unmarshal)
    requires Extends(rest, state) && JoinBuilt(rest, selection, rows, es, unmarshal)
    ensures JoinBuilt(state, selection, rows, es, unmarshal)
  {
    if selection.Some? {
      DecodedExtends(rest, state, es, selection.value, FirstRecords(rows), unmarshal);
    }
  }

  lemma ProxyExtends(rest: State, state: State, level: Level, db: Database, es: seq<Entity>, unmarshal: Unmarshal)
    requires Extends(rest, state) && ProxyBuilt(rest, level, db, es, unmarshal)
    ensures ProxyBuilt(state, level, db, es, unmarshal)
  {
    if level.AsksProxy(db) {
      DecodedExtends(rest, state, es, level.plan.proxy.value, level.Proxy(db), unmarshal);
    }
  }

  lemma StateGrows(rest: State, es: seq<Entity>)
    requires Current(rest)
    ensures var state := rest + ContentsOf(es); Current(state) && Extends(rest, state) && Frozen(es, state)
    ensures (rest + ContentsOf(es)).Keys == rest.Keys + set e | e in es
  {}

  // A block, with the contents of the neighbours it decoded added to those known before.
  method GroupsStep(level: Level, db: Database, nodes: seq<Entity>, ghost rest: State, unmarshal: Unmarshal)
    returns (outcome: Outcome, neighbors: seq<Entity>, ghost state: State)
    requires level.plan.Valid() && db.Valid() && NodesScanned(level, db, nodes, unmarshal)
    requires Current(rest) && forall n :: n in nodes ==> n !in rest
    modifies nodes`lists
    ensures forall e :: e in neighbors ==> fresh(e)
    ensures forall e :: e in state ==> e in rest || fresh(e)
    ensures Current(state) && Extends(rest, state)
    ensures Ended(outcome, level, GroupsEdge, db, unmarshal)
    ensures outcome.Ok? ==> JoinBuilt(state, level.plan.groups, level.Groups(db), neighbors, unmarshal)
    ensures outcome.Ok? ==> forall k :: 0 <= k < |nodes| ==>
      nodes[k].lists ==
      With(old(nodes[k].lists), GroupsEdge, JoinList(level.plan.groups, level.Groups(db), neighbors, level.Ids(db), k))
  {
    outcome, neighbors := FillGroups(level, db, nodes, unmarshal);
    state := rest + ContentsOf(neighbors);
    StateGrows(rest, neighbors);
    if outcome.Ok? {
      JoinStays(neighbors, state, level.plan.groups, level.Groups(db), unmarshal);
    }
  }

  method ProxyStep(level: Level, db: Database, nodes: seq<Entity>, ghost rest: State, unmarshal: Unmarshal)
    returns (outcome: Outcome, neighbors: seq<Entity>, ghost state: State)
    requires level.plan.Valid() && db.Valid() && NodesScanned(level, db, nodes, unmarshal)
    requires Current(rest) && forall n :: n in nodes ==> n !in rest
    modifies nodes`singles
    ensures forall e :: e in neighbors ==> fresh(e)
    ensures forall e :: e in state ==> e in rest || fresh(e)
    ensures Current(state) && Extends(rest, state)
    ensures Ended(outcome, level, ProxyEdge, db, unmarshal)
    ensures outcome.Ok? ==> ProxyBuilt(state, level, db, neighbors, unmarshal)
    ensures outcome.Ok? ==> forall k :: 0 <= k < |nodes| ==>
      nodes[k].singles == With(old(nodes[k].singles), ProxyEdge, ProxyOf(level, db, neighbors, k))
  {
    outcome, neighbors := FillProxy(level, db, nodes, unmarshal);
    state := rest + ContentsOf(neighbors);
    StateGrows(rest, neighbors);
    if outcome.Ok? {
      ProxyStays(neighbors, state, level, db, unmarshal);
    }
  }

  method ProxiesStep(level: Level, db: Database, nodes: seq<Entity>, ghost rest: State, unmarshal: Unmarshal)
    returns (outcome: Outcome, neighbors: seq<Entity>, ghost state: State)
    requires level.plan.Valid() && db.Valid() && NodesScanned(level, db, nodes, unmarshal)
    requires Current(rest) && forall n :: n in nodes ==> n !in rest
    modifies nodes`lists
    ensures forall e :: e in neighbors ==> fresh(e)
    ensures forall e :: e in state ==> e in rest || fresh(e)
    ensures Current(state) && Extends(rest, state)
    ensures Ended(outcome, level, ProxiesEdge, db, unmarshal)
    ensures outcome.Ok? ==> JoinBuilt(state, level.plan.proxies, level.Proxies(db), neighbors, unmarshal)
    ensures outcome.Ok? ==> forall k :: 0 <= k < |nodes| ==>
      nodes[k].lists ==
      With(old(nodes[k].lists), ProxiesEdge,
           JoinList(level.plan.proxies, level.Proxies(db), neighbors, level.Ids(db), k))
  {
    outcome, neighbors := FillProxies(level, db, nodes, unmarshal);
    state := rest + ContentsOf(neighbors);
    StateGrows(rest, neighbors);
    if outcome.Ok? {
      JoinStays(neighbors, state, level.plan.proxies, level.Proxies(db), unmarshal);
    }
  }

  // Two of the edges to other tables, on the heap.
  ghost predicate TwoSet(groups: seq<Entity>, proxy: seq<Entity>, level: Level, db: Database, nodes: seq<Entity>)
    requires |nodes| == |level.Records(db)|
    requires level.plan.groups.Some? ==> |groups| == |FirstIds(Links(level.Groups(db)))|
    reads nodes`lists, nodes`singles
  {
    forall k :: 0 <= k < |nodes| ==>
      && nodes[k].lists ==
         With(map[], GroupsEdge, JoinList(level.plan.groups, level.Groups(db), groups, level.Ids(db), k))
      && nodes[k].singles == With(map[], ProxyEdge, ProxyOf(level, db, proxy, k))
  }

  // The first two blocks of the edges to other tables, in sqlAll's order.
  method FillTwo(level: Level, db: Database, nodes: seq<Entity>, unmarshal: Unmarshal)
    returns (outcome: Outcome, ghost groups: seq<Entity>, ghost proxy: seq<Entity>, ghost state: State,
             ghost last: Edge)
    requires level.plan.Valid() && db.Valid() && NodesScanned(level, db, nodes, unmarshal)
    requires forall n :: n in nodes ==> Blank(n, level.plan.Edges())
    modifies nodes`lists, nodes`singles
    ensures forall e :: e in state || e in groups || e in proxy ==> fresh(e)
    ensures Current(state) && forall e :: e in groups ==> e !in proxy
    ensures outcome.Ok? ==> EdgeOk(level, GroupsEdge, db, unmarshal) && EdgeOk(level, ProxyEdge, db, unmarshal)
    ensures !outcome.Ok? ==> FailsAt(outcome, level, last, db, unmarshal)
    ensures outcome.Ok? ==> JoinBuilt(state, level.plan.groups, level.Groups(db), groups, unmarshal)
    ensures outcome.Ok? ==> ProxyBuilt(state, level, db, proxy, unmarshal)
    ensures outcome.Ok? ==> TwoSet(groups, proxy, level, db, nodes)
  {
    ghost var rest;
    last, proxy := GroupsEdge, [];
    forall k | 0 <= k < |nodes| ensures Blank(nodes[k], level.plan.Edges()) {
      assert nodes[k] in nodes;
    }
    outcome, groups, state := GroupsStep(level, db, nodes, map[], unmarshal);
    if !outcome.Ok? { return; }
    last, rest := ProxyEdge, state;
    outcome, proxy, state := ProxyStep(level, db, nodes, rest, unmarshal);
    if outcome.Ok? {
      JoinExtends(rest, state, level.plan.groups, level.Groups(db), groups, unmarshal);
    }
  }

  // All three.
  method FillForeign(level: Level, db: Database, nodes: seq<Entity>, unmarshal: Unmarshal)
    returns (outcome: Outcome, ghost f: Foreign, ghost last: Edge)
    requires level.plan.Valid() && db.Valid() && NodesScanned(level, db, nodes, unmarshal)
    requires forall n :: n in nodes ==> Blank(n, level.plan.Edges())
    modifies nodes`lists, nodes`singles
    ensures forall e :: e in f.state ==> fresh(e)
    ensures Current(f.state) && ForeignApart(f)
    ensures outcome.Ok? ==>
      EdgeOk(level, GroupsEdge, db, unmarshal) && EdgeOk(level, ProxyEdge, db, unmarshal)
        && EdgeOk(level, ProxiesEdge, db, unmarshal)
    ensures !outcome.Ok? ==> FailsAt(outcome, level, last, db, unmarshal)
    ensures outcome.Ok? ==> ForeignBuilt(f, level, db, unmarshal) && ForeignSet(f, level, db, nodes, unmarshal)
  {
    ghost var groups, proxy, proxies, rest, state;
    f := Foreign([], [], [], map[]);
    outcome, groups, proxy, rest, last := FillTwo(level, db, nodes, unmarshal);
    if !outcome.Ok? { return; }
    last := ProxiesEdge;
    outcome, proxies, state := ProxiesStep(level, db, nodes, rest, unmarshal);
    f := Foreign(groups, proxy, proxies, state);
    if outcome.Ok? {
      JoinExtends(rest, state, level.plan.groups, level.Groups(db), groups, unmarshal);
      ProxyExtends(rest, state, level, db, proxy, unmarshal);
    }
  }

  // The nested runs, each done exactly where it is asked for.
  ghost predicate NestedLoaded(parent: Option<Run>, children: Option<Run>, level: Level, db: Database,
                               unmarshal: Unmarshal)
  {
    && (parent.Some? <==> level.AsksParent(db)) && (children.Some? <==> level.plan.children.Some?)
    && (parent.Some? ==> RunLoaded(parent.value, level.Parent(db), db, unmarshal))
    && (children.Some? ==> RunLoaded(children.value, level.Children(db), db, unmarshal))
    && (children.Some? ==> |children.value.nodes| == |level.Children(db).Records(db)|)
  }

  // The blocks of the edges within the table.
  method FillOwn(level: Level, db: Database, nodes: seq<Entity>, ghost rest: State, unmarshal: Unmarshal)
    returns (outcome: Outcome, ghost parent: Option<Run>, ghost children: Option<Run>, ghost last: Edge)
    requires level.plan.Valid() && db.Valid() && NodesScanned(level, db, nodes, unmarshal)
    requires Current(rest) && forall n :: n in nodes ==> n !in rest
    modifies nodes`lists, nodes`singles
    ensures forall e :: e in NestedState(parent).Keys + NestedState(children).Keys ==> fresh(e)
    ensures NestedState(parent).Keys !! NestedState(children).Keys
    ensures outcome.Ok? ==> EdgeOk(level, ParentEdge, db, unmarshal) && EdgeOk(level, ChildrenEdge, db, unmarshal)
    ensures !outcome.Ok? ==> FailsAt(outcome, level, last, db, unmarshal)
    ensures Current(rest)
    ensures outcome.Ok? ==> NestedLoaded(parent, children, level, db, unmarshal)
    ensures outcome.Ok? ==> Current(NestedState(parent)) && Current(NestedState(children))
    ensures outcome.Ok? ==> forall k :: 0 <= k < |nodes| ==>
      && nodes[k].singles == With(old(nodes[k].singles), ParentEdge, ParentOf(level, db, parent, k))
      && nodes[k].lists == WithChildren(old(nodes[k].lists), level, db, children, k)
    decreases level.plan, 3
  {
    parent, children, last := None, None, ParentEdge;
    outcome, parent := FillParent(level, db, nodes, unmarshal);
    if !outcome.Ok? { return; }
    last := ChildrenEdge;
    outcome, children := FillChildren(level, db, nodes, unmarshal);
  }

  ghost function WithChildren(lists: map<Edge, seq<Entity>>, level: Level, db: Database, children: Option<Run>, k: nat)
    : map<Edge, seq<Entity>>
    requires k < |level.Records(db)|
    requires children.Some? ==> level.plan.children.Some?
    requires children.Some? ==> |children.value.nodes| == |level.Children(db).Records(db)|
  {
    if children.None? then lists
    else lists[ChildrenEdge := ChildList(level.Children(db).Records(db), children.value.nodes, level.Ids(db), k)]
  }

  // Everything the blocks leave.
  ghost function Gathered(nodes: seq<Entity>, f: Foreign, parent: Option<Run>, children: Option<Run>): Run
    reads nodes
  {
    var state := f.state + ContentsOf(nodes);
    Run(nodes, f.groups, f.proxy, f.proxies, state, parent, children,
        NestedState(parent) + NestedState(children) + state)
  }

  lemma ForeignExtends(f: Foreign, state: State, level: Level, db: Database, unmarshal: Unmarshal)
    requires Extends(f.state, state) && ForeignBuilt(f, level, db, unmarshal)
    ensures ForeignBuilt(f.(state := state), level, db, unmarshal)
  {
    JoinExtends(f.state, state, level.plan.groups, level.Groups(db), f.groups, unmarshal);
    ProxyExtends(f.state, state, level, db, f.proxy, unmarshal);
    JoinExtends(f.state, state, level.plan.proxies, level.Proxies(db), f.proxies, unmarshal);
  }

  // The edges of the nodes after all five blocks.
  ghost predicate EdgesFilled(run: Run, level: Level, db: Database)
    requires Shaped(run, level, db)
    reads run.nodes`lists, run.nodes`singles
  {
    forall k :: 0 <= k < |run.nodes| ==>
      run.nodes[k].lists == ListsOf(run, level, db, k) && run.nodes[k].singles == SinglesOf(run, level, db, k)
  }

  lemma NodesStay(run: Run, level: Level, db: Database, unmarshal: Unmarshal)
    requires Shaped(run, level, db) && EdgesFilled(run, level, db)
    requires NodesScanned(level, db, run.nodes, unmarshal) && Frozen(run.nodes, run.state)
    ensures NodesBuilt(run, level, db, unmarshal)
  {
    DecodedStays(run.nodes, run.state, level.Columns(), level.Records(db), unmarshal);
    forall k | 0 <= k < |run.nodes|
      ensures run.state[run.nodes[k]].loadedTypes == level.plan.Edges()
      ensures run.state[run.nodes[k]].lists == ListsOf(run, level, db, k)
      ensures run.state[run.nodes[k]].singles == SinglesOf(run, level, db, k)
    {
      assert run.nodes[k] in run.nodes;
    }
  }

  // It is a loaded run.
  lemma GatheredIsLoaded(run: Run, nodes: seq<Entity>, f: Foreign, level: Level, db: Database, unmarshal: Unmarshal)
    requires level.Records(db) != [] && NodesScanned(level, db, nodes, unmarshal)
      && ForeignBuilt(f, level, db, unmarshal)
    requires run == Gathered(nodes, f, run.parent, run.children) && run.Separate() && run.Apart()
    requires NestedLoaded(run.parent, run.children, level, db, unmarshal)
    requires Shaped(run, level, db) && EdgesFilled(run, level, db)
    requires forall n :: n in nodes ==> n !in f.state
    ensures RunLoaded(run, level, db, unmarshal)
  {
    ForeignExtends(f, run.state, level, db, unmarshal);
    NodesStay(run, level, db, unmarshal);
  }

  // All edges of the nodes, on the heap.
  ghost predicate AllSet(f: Foreign, parent: Option<Run>, children: Option<Run>, level: Level, db: Database,
                         nodes: seq<Entity>, unmarshal: Unmarshal)
    requires |nodes| == |level.Records(db)| && ForeignBuilt(f, level, db, unmarshal)
    requires NestedLoaded(parent, children, level, db, unmarshal)
    reads nodes`lists, nodes`singles
  {
    forall k :: 0 <= k < |nodes| ==>
      && nodes[k].lists == WithChildren(JoinLists(f.groups, f.proxies, level, db, k), level, db, children, k)
      && nodes[k].singles ==
         With(With(map[], ProxyEdge, ProxyOf(level, db, f.proxy, k)), ParentEdge, ParentOf(level, db, parent, k))
  }

  // The last two blocks, after the first three.
  method FillRest(level: Level, db: Database, nodes: seq<Entity>, ghost f: Foreign, unmarshal: Unmarshal)
    returns (outcome: Outcome, ghost parent: Option<Run>, ghost children: Option<Run>, ghost last: Edge)
    requires level.plan.Valid() && db.Valid() && NodesScanned(level, db, nodes, unmarshal)
    requires ForeignBuilt(f, level, db, unmarshal) && ForeignSet(f, level, db, nodes, unmarshal)
    requires Current(f.state) && forall n :: n in nodes ==> n !in f.state
    modifies nodes`lists, nodes`singles
    ensures forall e :: e in NestedState(parent).Keys + NestedState(children).Keys ==> fresh(e)
    ensures NestedState(parent).Keys !! NestedState(children).Keys
    ensures outcome.Ok? ==> EdgeOk(level, ParentEdge, db, unmarshal) && EdgeOk(level, ChildrenEdge, db, unmarshal)
    ensures !outcome.Ok? ==> FailsAt(outcome, level, last, db, unmarshal)
    ensures outcome.Ok? ==> Current(f.state) && Current(NestedState(parent)) && Current(NestedState(children))
    ensures outcome.Ok? ==> NestedLoaded(parent, children, level, db, unmarshal)
    ensures outcome.Ok? ==> AllSet(f, parent, children, level, db, nodes, unmarshal)
    decreases level.plan, 4
  {
    outcome, parent, children, last := FillOwn(level, db, nodes, f.state, unmarshal);
  }

  lemma NodesAreNoNeighbors(f: Foreign, nodes: seq<Entity>, level: Level, db: Database, unmarshal: Unmarshal)
    requires ForeignBuilt(f, level, db, unmarshal) && forall n :: n in nodes ==> n !in f.state
    ensures forall n :: n in nodes ==> n !in f.groups && n !in f.proxy && n !in f.proxies
  {}

  // What all blocks leave is a loaded run, and the heap holds it.
  lemma AllSetIsLoaded(f: Foreign, parent: Option<Run>, children: Option<Run>, level: Level, db: Database,
                       nodes: seq<Entity>, unmarshal: Unmarshal)
    requires level.Records(db) != [] && NodesScanned(level, db, nodes, unmarshal)
      && ForeignBuilt(f, level, db, unmarshal)
    requires NestedLoaded(parent, children, level, db, unmarshal)
      && AllSet(f, parent, children, level, db, nodes, unmarshal)
    requires Gathered(nodes, f, parent, children).Separate() && forall n :: n in nodes ==> n !in f.state
    requires ForeignApart(f)
    ensures RunLoaded(Gathered(nodes, f, parent, children), level, db, unmarshal)
  {
    var run := Gathered(nodes, f, parent, children);
    assert Shaped(run, level, db);
    assert EdgesFilled(run, level, db);
    NodesAreNoNeighbors(f, nodes, level, db, unmarshal);
    GatheredIsLoaded(run, nodes, f, level, db, unmarshal);
  }

  lemma GatheredIsCurrent(f: Foreign, parent: Option<Run>, children: Option<Run>, nodes: seq<Entity>)
    requires Current(f.state) && Current(NestedState(parent)) && Current(NestedState(children))
    ensures Current(Gathered(nodes, f, parent, children).whole)
  {
    StateGrows(f.state, nodes);
  }

  // All edges can be loaded.
  ghost predicate AllOk(level: Level, db: Database, unmarshal: Unmarshal) {
    forall e :: e in ALL_EDGES ==> EdgeOk(level, e, db, unmarshal)
  }

  // The five blocks in sqlAll's order.
  method FillAll(level: Level, db: Database, nodes: seq<Entity>, unmarshal: Unmarshal)
    returns (outcome: Outcome, ghost f: Foreign, ghost parent: Option<Run>, ghost children: Option<Run>,
             ghost last: Edge)
    requires level.plan.Valid() && db.Valid() && NodesScanned(level, db, nodes, unmarshal)
    requires forall n :: n in nodes ==> Blank(n, level.plan.Edges())
    modifies nodes`lists, nodes`singles
    ensures forall e :: e in f.state ==> fresh(e)
    ensures forall e :: e in NestedState(parent).Keys + NestedState(children).Keys ==> fresh(e) && e !in f.state
    ensures NestedState(parent).Keys !! NestedState(children).Keys
    ensures outcome.Ok? ==> AllOk(level, db, unmarshal)
    ensures !outcome.Ok? ==> FailsAt(outcome, level, last, db, unmarshal)
    ensures outcome.Ok? ==> Current(f.state) && Current(NestedState(parent)) && Current(NestedState(children))
    ensures outcome.Ok? ==>
      ForeignBuilt(f, level, db, unmarshal) && NestedLoaded(parent, children, level, db, unmarshal)
    ensures outcome.Ok? ==> ForeignApart(f)
    ensures outcome.Ok? ==> AllSet(f, parent, children, level, db, nodes, unmarshal)
    decreases level.plan, 5
  {
    parent, children := None, None;
    outcome, f, last := FillForeign(level, db, nodes, unmarshal);
    if !outcome.Ok? { return; }
    outcome, parent, children, last := FillRest(level, db, nodes, f, unmarshal);
  }

  // The parts stay apart.
  lemma GatheredIsSeparate(f: Foreign, parent: Option<Run>, children: Option<Run>, nodes: seq<Entity>)
    requires NestedState(parent).Keys !! NestedState(children).Keys
    requires forall e :: e in NestedState(parent).Keys + NestedState(children).Keys ==> e !in f.state && e !in nodes
    ensures Gathered(nodes, f, parent, children).Separate()
  {}

  // The same, gathered into a run.
  method FillEdges(level: Level, db: Database, nodes: seq<Entity>, unmarshal: Unmarshal)
    returns (outcome: Outcome, ghost run: Run, ghost last: Edge)
    requires level.plan.Valid() && db.Valid() && NodesScanned(level, db, nodes, unmarshal) && level.Records(db) != []
    requires forall n :: n in nodes ==> Blank(n, level.plan.Edges())
    modifies nodes`lists, nodes`singles
    ensures forall e :: e in run.whole.Keys ==> fresh(e) || e in nodes
    ensures outcome.Ok? ==> AllOk(level, db, unmarshal)
    ensures !outcome.Ok? ==> FailsAt(outcome, level, last, db, unmarshal)
    ensures outcome.Ok? ==> Succeeded(run, level, db, unmarshal, nodes)
    decreases level.plan, 6
  {
    ghost var f, parent, children;
    outcome, f, parent, children, last := FillAll(level, db, nodes, unmarshal);
    run := Gathered(nodes, f, parent, children);
    if outcome.Ok? {
      GatheredIsSeparate(f, parent, children, nodes);
      AllSetIsLoaded(f, parent, children, level, db, nodes, unmarshal);
      GatheredIsCurrent(f, parent, children, nodes);
    }
  }

  // A run that reads its nodes ends as its edges do.
  lemma EdgesDecide(outcome: Outcome, level: Level, last: Edge, db: Database, unmarshal: Unmarshal)
    requires AllDecodable(level.Columns(), level.Records(db), unmarshal) && level.Records(db) != []
    requires if outcome.Ok? then AllOk(level, db, unmarshal) else FailsAt(outcome, level, last, db, unmarshal)
    ensures RunEnded(outcome, level, db, unmarshal)
  {
    assert last in ALL_EDGES;
    if outcome.Ok? {
      forall e | e in ALL_EDGES ensures EdgeReadable(level, e, db, unmarshal) && EdgeHonest(level, e, db) {
        assert EdgeOk(level, e, db, unmarshal);
      }
    }
  }

  /**
   sqlAll. It succeeds exactly if every row it reads can be decoded and respects what was asked for, at every depth; and
   then the run holds exactly what its rows say, and so does the heap.
   */
  method SqlAll(level: Level, db: Database, unmarshal: Unmarshal)
    returns (outcome: Outcome, nodes: seq<Entity>, ghost run: Run)
    requires level.plan.Valid() && db.Valid()
    ensures forall e :: e in run.whole.Keys ==> fresh(e)
    ensures RunEnded(outcome, level, db, unmarshal)
    ensures outcome.Ok? ==> Succeeded(run, level, db, unmarshal, nodes)
    decreases level.plan, 7
  {
    run := NOTHING;
    var err;
    err, nodes := ScanNodes(level, db, unmarshal);
    if !err.NoError? {
      return DecodeFailed(err), nodes, run;
    }
    if |nodes| == 0 {
      return Ok, nodes, run;
    }
    forall k | 0 <= k < |nodes| ensures fresh(nodes[k]) {
      assert nodes[k] in nodes;
    }
    ghost var last;
    outcome, run, last := FillEdges(level, db, nodes, unmarshal);
    EdgesDecide(outcome, level, last, db, unmarshal);
  }
}
