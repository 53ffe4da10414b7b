/**
 What the edges of a loaded run hold, told on the driver's answers, and what the edge accessors of
 backend/ent/account.go (lines 113-167) answer after a run of sqlAll.
 */
module EdgeLookups {
  import opened Wrappers
  import opened Accounts
  import opened JoinSpec
  import opened EagerLoading
  import opened ColumnSelection
  import opened QuerySpec
  import opened RowSources
  import opened AccountQuery

  // The nodes of a run are decoded, seen from the whole.
  lemma NestedIsDecoded(run: Run, level: Level, db: Database, unmarshal: Unmarshal)
    requires RunLoaded(run, level, db, unmarshal)
    ensures AllDecodedAs(run.whole, run.nodes, level.Columns(), level.Records(db), unmarshal)
  {
    if level.Records(db) != [] {
      assert Extends(run.state, run.whole);
      DecodedExtends(run.state, run.whole, run.nodes, level.Columns(), level.Records(db), unmarshal);
    }
  }

  lemma WholeExtends(run: Run)
    requires run.Separate()
    ensures Extends(run.state, run.whole)
    ensures Extends(NestedState(run.parent), run.whole) && Extends(NestedState(run.children), run.whole)
  {}

  // loadedTypes, edge by edge.
  lemma RequestedAre(plan: Plan)
    ensures plan.Edges() ==
      (if plan.groups.Some? then {GroupsEdge} else {}) + (if plan.proxy.Some? then {ProxyEdge} else {})
      + (if plan.proxies.Some? then {ProxiesEdge} else {}) + (if plan.parent.Some? then {ParentEdge} else {})
      + if plan.children.Some? then {ChildrenEdge} else {}
  {
    forall e: Edge ensures e in ALL_EDGES {
      AllEdges(e);
    }
  }

  lemma NodeKeepsContent(run: Run, level: Level, db: Database, unmarshal: Unmarshal, k: nat)
    requires RunLoaded(run, level, db, unmarshal) && k < |level.Records(db)|
    ensures Shaped(run, level, db) && k < |run.nodes| == |level.Ids(db)|
    ensures run.nodes[k] in run.state && run.nodes[k] in run.whole
    ensures run.whole[run.nodes[k]] == run.state[run.nodes[k]]
    ensures DecodedAs(run.state[run.nodes[k]], level.Columns(), level.Records(db)[k], unmarshal)
    ensures run.state[run.nodes[k]].loadedTypes == level.plan.Edges()
    ensures run.state[run.nodes[k]].lists == ListsOf(run, level, db, k)
    ensures run.state[run.nodes[k]].singles == SinglesOf(run, level, db, k)
  {
    LoadedOwn(run, level, db, unmarshal);
    WholeExtends(run);
  }

  // Nodes are decoded from the rows of the query itself, one each, and know which edges were asked for.
  lemma NodesComeFromRows(run: Run, level: Level, db: Database, unmarshal: Unmarshal, k: nat)
    requires RunLoaded(run, level, db, unmarshal) && k < |db.rows(level.path, level.bound)|
    ensures |run.nodes| == |db.rows(level.path, level.bound)| && run.nodes[k] in run.whole
    ensures DecodedAs(run.whole[run.nodes[k]],
                      ColumnList(level.fields, level.plan.proxy.Some?, level.plan.parent.Some?),
                      db.rows(level.path, level.bound)[k], unmarshal)
    ensures run.whole[run.nodes[k]].loadedTypes ==
      (if level.plan.groups.Some? then {GroupsEdge} else {}) + (if level.plan.proxy.Some? then {ProxyEdge} else {})
      + (if level.plan.proxies.Some? then {ProxiesEdge} else {})
      + (if level.plan.parent.Some? then {ParentEdge} else {})
      + if level.plan.children.Some? then {ChildrenEdge} else {}
  {
    NodeKeepsContent(run, level, db, unmarshal, k);
    RequestedAre(level.plan);
  }

  // The list of one join edge.
  lemma JoinComesFrom(run: Run, es: seq<Entity>, columns: seq<Column>, rows: seq<JoinRow>, unmarshal: Unmarshal,
                      ids: seq<int>, k: nat)
    returns (at: seq<nat>)
    requires run.Separate() && JoinBuilt(run.state, Some(columns), rows, es, unmarshal) && k < |ids|
    requires |es| == |FirstIds(Links(rows))|
    ensures JoinedAt(rows, ids, k, at) && forall i :: 0 <= i < |at| ==> at[i] < |rows|
    ensures AllDecodedAs(run.whole, Share(es, Links(rows), ids, k), columns, At(JoinRecords(rows), at), unmarshal)
  {
    var picks;
    picks, at := ShareStands(rows, ids, k, es);
    WholeExtends(run);
    DecodedExtends(run.state, run.whole, es, columns, FirstRecords(rows), unmarshal);
    AtAligned(run.whole, es, columns, FirstRecords(rows), picks, unmarshal);
  }

  lemma ChildrenComeFrom(run: Run, level: Level, db: Database, unmarshal: Unmarshal, ids: seq<int>, k: nat)
    returns (at: seq<nat>)
    requires run.Separate() && run.children.Some? && level.plan.children.Some? && k < |ids|
    requires RunLoaded(run.children.value, level.Children(db), db, unmarshal)
    requires |run.children.value.nodes| == |level.Children(db).Records(db)|
    ensures ChildrenAt(level.Children(db).Records(db), ids, k, at)
    ensures forall i :: 0 <= i < |at| ==> at[i] < |level.Children(db).Records(db)|
    ensures AllDecodedAs(run.whole, ChildList(level.Children(db).Records(db), run.children.value.nodes, ids, k),
                         level.Children(db).Columns(), At(level.Children(db).Records(db), at), unmarshal)
  {
    var nested, columns, records := run.children.value, level.Children(db).Columns(), level.Children(db).Records(db);
    at := ChildListStands(nested.nodes, records, ids, k);
    NestedIsDecoded(nested, level.Children(db), db, unmarshal);
    WholeExtends(run);
    DecodedExtends(nested.whole, run.whole, nested.nodes, columns, records, unmarshal);
    AtAligned(run.whole, nested.nodes, columns, records, at, unmarshal);
  }

  // The lists of node k, edge by edge.
  lemma ListsAre(run: Run, level: Level, db: Database, k: nat)
    requires Shaped(run, level, db) && k < |run.nodes|
    ensures Field(ListsOf(run, level, db, k), GroupsEdge) ==
      JoinList(level.plan.groups, level.Groups(db), run.groups, level.Ids(db), k)
    ensures Field(ListsOf(run, level, db, k), ProxiesEdge) ==
      JoinList(level.plan.proxies, level.Proxies(db), run.proxies, level.Ids(db), k)
    ensures Field(ListsOf(run, level, db, k), ChildrenEdge) ==
      if run.children.None? then None
      else Some(ChildList(level.Children(db).Records(db), run.children.value.nodes, level.Ids(db), k))
    ensures forall e :: e in {ProxyEdge, ParentEdge} ==> e !in ListsOf(run, level, db, k)
  {}

  // The join that fills a list edge, and the neighbours decoded from it.
  lemma JoinListComesFrom(run: Run, level: Level, e: Edge, db: Database, unmarshal: Unmarshal, ids: seq<int>, k: nat)
    returns (columns: seq<Column>, records: seq<Record>, at: seq<nat>)
    requires RunLoaded(run, level, db, unmarshal) && ids == level.Ids(db) && k < |ids|
    requires e in {GroupsEdge, ProxiesEdge} && level.plan.Requests(e)
    ensures ListSource(level, e, db, ids, k, columns, records, at)
    ensures Shaped(run, level, db) && e in ListsOf(run, level, db, k)
    ensures AllDecodedAs(run.whole, ListsOf(run, level, db, k)[e], columns, At(records, at), unmarshal)
  {
    LoadedOwn(run, level, db, unmarshal);
    ListsAre(run, level, db, k);
    if e == GroupsEdge {
      columns, records := level.plan.groups.value, JoinRecords(level.Groups(db));
      at := JoinComesFrom(run, run.groups, columns, level.Groups(db), unmarshal, ids, k);
    } else {
      columns, records := level.plan.proxies.value, JoinRecords(level.Proxies(db));
      at := JoinComesFrom(run, run.proxies, columns, level.Proxies(db), unmarshal, ids, k);
    }
  }

  lemma ChildListSource(level: Level, db: Database, ids: seq<int>, k: nat, at: seq<nat>)
    requires level.plan.children.Some? && ids == level.Ids(db) && k < |ids|
    requires ChildrenAt(level.Children(db).Records(db), ids, k, at)
    requires forall i :: 0 <= i < |at| ==> at[i] < |level.Children(db).Records(db)|
    ensures ListSource(level, ChildrenEdge, db, ids, k, level.Children(db).Columns(), level.Children(db).Records(db),
                       at)
  {}

  lemma ChildListComesFrom(run: Run, level: Level, db: Database, unmarshal: Unmarshal, ids: seq<int>, k: nat)
    returns (columns: seq<Column>, records: seq<Record>, at: seq<nat>)
    requires RunLoaded(run, level, db, unmarshal) && ids == level.Ids(db) && k < |ids| && level.plan.children.Some?
    ensures ListSource(level, ChildrenEdge, db, ids, k, columns, records, at)
    ensures Shaped(run, level, db) && ChildrenEdge in ListsOf(run, level, db, k)
    ensures AllDecodedAs(run.whole, ListsOf(run, level, db, k)[ChildrenEdge], columns, At(records, at), unmarshal)
  {
    LoadedOwn(run, level, db, unmarshal);
    assert Field(ListsOf(run, level, db, k), ChildrenEdge) ==
      Some(ChildList(level.Children(db).Records(db), run.children.value.nodes, level.Ids(db), k)) by {
      ListsAre(run, level, db, k);
    }
    columns, records := level.Children(db).Columns(), level.Children(db).Records(db);
    at := ChildrenComeFrom(run, level, db, unmarshal, ids, k);
    ChildListSource(level, db, ids, k, at);
  }

  /**
   A requested list edge of a loaded run: the answer to the edge's own query, of which node k holds, in row order, the
   entities decoded from the rows that are the node's.
   */
  lemma ListComesFrom(run: Run, level: Level, e: Edge, db: Database, unmarshal: Unmarshal, ids: seq<int>, k: nat)
    returns (columns: seq<Column>, records: seq<Record>, at: seq<nat>)
    requires RunLoaded(run, level, db, unmarshal) && AreIds(ids, db.rows(level.path, level.bound)) && k < |ids|
    requires e in {GroupsEdge, ProxiesEdge, ChildrenEdge} && level.plan.Requests(e)
    ensures ListSource(level, e, db, ids, k, columns, records, at)
    ensures |run.nodes| == |ids| && run.nodes[k] in run.whole && e in run.whole[run.nodes[k]].lists
    ensures AllDecodedAs(run.whole, run.whole[run.nodes[k]].lists[e], columns, At(records, at), unmarshal)
  {
    IdsAre(db.rows(level.path, level.bound), ids);
    NodeKeepsContent(run, level, db, unmarshal, k);
    if e == ChildrenEdge {
      columns, records, at := ChildListComesFrom(run, level, db, unmarshal, ids, k);
    } else {
      columns, records, at := JoinListComesFrom(run, level, e, db, unmarshal, ids, k);
    }
  }

  // Who is asked for when nobody has a key.
  lemma NobodyAsks(level: Level, db: Database, column: Column, k: nat)
    requires k < |level.Records(db)| && level.Asked(db, column) == []
    ensures level.Keys(db, column)[k].None?
  {
    var keys := level.Keys(db, column);
    WantedExact(keys, |keys|);
    if keys[k].Some? {
      assert References(keys, |keys|, keys[k].value);
    }
  }

  // The neighbour a key names.
  lemma KeyEntityComesFrom(state: State, es: seq<Entity>, columns: seq<Column>, records: seq<Record>, key: Buffer,
                           fk: Option<int>, unmarshal: Unmarshal)
    returns (at: Option<nat>)
    requires AllDecodedAs(state, es, columns, records, unmarshal)
    requires fk == match key { case NullInt64(v) => v case _ => None }
    ensures SingleAt(records, key, at) && (at.Some? ==> at.value < |es|)
    ensures KeyEntity(records, es, fk).Some? <==> at.Some?
    ensures at.Some? ==> var e := KeyEntity(records, es, fk).value;
      e in state && DecodedAs(state[e], columns, records[at.value], unmarshal)
  {
    at := KeyEntityStands(records, es, key, fk);
  }

  lemma ProxyComesFrom(run: Run, level: Level, db: Database, unmarshal: Unmarshal, k: nat) returns (at: Option<nat>)
    requires run.Separate() && ProxyBuilt(run.state, level, db, run.proxy, unmarshal) && level.plan.proxy.Some?
    requires k < |level.Records(db)|
    ensures SingleAt(level.Proxy(db), level.Records(db)[k](ProxyID), at)
    ensures at.Some? ==> at.value < |level.Proxy(db)|
    ensures ProxyOf(level, db, run.proxy, k).Some? <==> at.Some?
    ensures at.Some? ==> var e := ProxyOf(level, db, run.proxy, k).value;
      e in run.whole && DecodedAs(run.whole[e], level.plan.proxy.value, level.Proxy(db)[at.value], unmarshal)
  {
    if level.AsksProxy(db) {
      WholeExtends(run);
      DecodedExtends(run.state, run.whole, run.proxy, level.plan.proxy.value, level.Proxy(db), unmarshal);
      at := KeyEntityComesFrom(run.whole, run.proxy, level.plan.proxy.value, level.Proxy(db),
                               level.Records(db)[k](ProxyID), level.Keys(db, ProxyID)[k], unmarshal);
    } else {
      NobodyAsks(level, db, ProxyID, k);
      at := None;
    }
  }

  lemma ParentComesFrom(run: Run, level: Level, db: Database, unmarshal: Unmarshal, k: nat) returns (at: Option<nat>)
    requires run.Separate() && level.plan.parent.Some? && (run.parent.Some? <==> level.AsksParent(db))
    requires run.parent.Some? ==> RunLoaded(run.parent.value, level.Parent(db), db, unmarshal)
    requires k < |level.Records(db)|
    ensures SingleAt(level.Parent(db).Records(db), level.Records(db)[k](ParentAccountID), at)
    ensures at.Some? ==> at.value < |level.Parent(db).Records(db)|
    ensures ParentOf(level, db, run.parent, k).Some? <==> at.Some?
    ensures at.Some? ==> var e := ParentOf(level, db, run.parent, k).value;
      && e in run.whole
      && DecodedAs(run.whole[e], level.Parent(db).Columns(), level.Parent(db).Records(db)[at.value], unmarshal)
  {
    if run.parent.Some? {
      var nested, columns, records := run.parent.value, level.Parent(db).Columns(), level.Parent(db).Records(db);
      NestedIsDecoded(nested, level.Parent(db), db, unmarshal);
      WholeExtends(run);
      DecodedExtends(nested.whole, run.whole, nested.nodes, columns, records, unmarshal);
      at := KeyEntityComesFrom(run.whole, nested.nodes, columns, records, level.Records(db)[k](ParentAccountID),
                               level.Keys(db, ParentAccountID)[k], unmarshal);
    } else {
      NobodyAsks(level, db, ParentAccountID, k);
      at := None;
    }
  }

  lemma SinglesAre(run: Run, level: Level, db: Database, k: nat)
    requires Shaped(run, level, db) && k < |run.nodes|
    ensures Field(SinglesOf(run, level, db, k), ProxyEdge) == ProxyOf(level, db, run.proxy, k)
    ensures Field(SinglesOf(run, level, db, k), ParentEdge) == ParentOf(level, db, run.parent, k)
    ensures forall e :: e in {GroupsEdge, ProxiesEdge, ChildrenEdge} ==> e !in SinglesOf(run, level, db, k)
  {}

  // A requested to-one edge of a loaded run: set exactly if some row has the node's key, and decoded from the last.
  lemma SingleComesFrom(run: Run, level: Level, e: Edge, db: Database, unmarshal: Unmarshal, k: nat)
    returns (columns: seq<Column>, records: seq<Record>, at: Option<nat>)
    requires RunLoaded(run, level, db, unmarshal) && k < |db.rows(level.path, level.bound)|
    requires e in {ProxyEdge, ParentEdge} && level.plan.Requests(e)
    ensures SingleSource(level, e, db, k, columns, records, at)
    ensures |run.nodes| == |db.rows(level.path, level.bound)| && run.nodes[k] in run.whole
    ensures e in run.whole[run.nodes[k]].singles <==> at.Some?
    ensures at.Some? ==> var single := run.whole[run.nodes[k]].singles[e];
      single in run.whole && DecodedAs(run.whole[single], columns, records[at.value], unmarshal)
  {
    LoadedOwn(run, level, db, unmarshal);
    NodeKeepsContent(run, level, db, unmarshal, k);
    SinglesAre(run, level, db, k);
    if e == ProxyEdge {
      WantedAreKeys(level.Records(db), ProxyID);
      columns, records := level.plan.proxy.value, level.Proxy(db);
      at := ProxyComesFrom(run, level, db, unmarshal, k);
    } else {
      WantedAreKeys(level.Records(db), ParentAccountID);
      columns, records := level.Parent(db).Columns(), level.Parent(db).Records(db);
      at := ParentComesFrom(run, level, db, unmarshal, k);
    }
  }

  // An edge that was not requested is nil.
  lemma UnrequestedIsNil(run: Run, level: Level, e: Edge, db: Database, unmarshal: Unmarshal, k: nat)
    requires RunLoaded(run, level, db, unmarshal) && k < |db.rows(level.path, level.bound)|
    requires !level.plan.Requests(e)
    ensures |run.nodes| == |db.rows(level.path, level.bound)| && run.nodes[k] in run.whole
    ensures e !in run.whole[run.nodes[k]].lists && e !in run.whole[run.nodes[k]].singles
  {
    NodeKeepsContent(run, level, db, unmarshal, k);
    ListsAre(run, level, db, k);
    SinglesAre(run, level, db, k);
  }
  // The nested runs: of the query for the distinct keys, if there are any, and of the query for the IDs.
  lemma NestedRunsAre(run: Run, level: Level, db: Database, unmarshal: Unmarshal, ids: seq<int>, proxyKeys: seq<int>,
                      parentKeys: seq<int>)
    requires RunLoaded(run, level, db, unmarshal) && Bound(level, db, ids, proxyKeys, parentKeys)
    ensures db.rows(level.path, level.bound) == [] ==> run == NOTHING
    ensures db.rows(level.path, level.bound) != [] ==>
      && (run.parent.Some? <==> level.plan.parent.Some? && parentKeys != [])
      && (run.children.Some? <==> level.plan.children.Some?)
    ensures run.parent.Some? ==>
      && level.plan.parent.Some?
      && RunLoaded(run.parent.value, ParentQuery(level.plan.parent.value, level.path, parentKeys), db, unmarshal)
    ensures run.children.Some? ==>
      && level.plan.children.Some?
      && RunLoaded(run.children.value, ChildrenQuery(level.plan.children.value, level.path, ids), db, unmarshal)
  {
    IdsAre(db.rows(level.path, level.bound), ids);
    KeysAre(db.rows(level.path, level.bound), ParentAccountID, parentKeys);
  }

  // Node k of a loaded run, told on the answers: its own row, the edges asked for, and for each of them the rows of the
  // edge's own query that are the node's; the other edges are nil.
  ghost predicate NodeHolds(run: Run, level: Level, db: Database, unmarshal: Unmarshal, ids: seq<int>, k: nat)
    requires k < |ids| == |db.rows(level.path, level.bound)|
  {
    && k < |run.nodes| && run.nodes[k] in run.whole
    && var node, plan := run.whole[run.nodes[k]], level.plan;
    && DecodedAs(node, ColumnList(level.fields, plan.proxy.Some?, plan.parent.Some?),
                 db.rows(level.path, level.bound)[k], unmarshal)
    && (GroupsEdge in node.lists <==> plan.groups.Some?) && (ProxiesEdge in node.lists <==> plan.proxies.Some?)
    && (ChildrenEdge in node.lists <==> plan.children.Some?)
    && (ProxyEdge in node.singles ==> plan.proxy.Some?) && (ParentEdge in node.singles ==> plan.parent.Some?)
    && (forall e :: e in node.lists ==> ListHolds(run.whole, node.lists[e], level, e, db, unmarshal, ids, k))
    && (plan.proxy.Some? ==> SingleIs(run.whole, Field(node.singles, ProxyEdge), level, ProxyEdge, db, unmarshal, k))
    && (plan.parent.Some? ==> SingleIs(run.whole, Field(node.singles, ParentEdge), level, ParentEdge, db, unmarshal, k))
  }

  ghost predicate ListHolds(state: State, list: seq<Entity>, level: Level, e: Edge, db: Database, unmarshal: Unmarshal,
                            ids: seq<int>, k: nat)
    requires k < |ids|
  {
    exists columns, records, at ::
      && ListSource(level, e, db, ids, k, columns, records, at)
      && AllDecodedAs(state, list, columns, At(records, at), unmarshal)
  }

  ghost predicate SingleIs(state: State, single: Option<Entity>, level: Level, e: Edge, db: Database,
                           unmarshal: Unmarshal, k: nat)
    requires k < |db.rows(level.path, level.bound)|
  {
    exists columns, records, at ::
      && SingleSource(level, e, db, k, columns, records, at)
      && (single.Some? <==> at.Some?)
      && (single.Some? ==> single.value in state
                           && DecodedAs(state[single.value], columns, records[at.value], unmarshal))
  }

  lemma ListIs(run: Run, level: Level, e: Edge, db: Database, unmarshal: Unmarshal, ids: seq<int>, k: nat)
    requires RunLoaded(run, level, db, unmarshal) && AreIds(ids, db.rows(level.path, level.bound)) && k < |ids|
    requires e in {GroupsEdge, ProxiesEdge, ChildrenEdge} && level.plan.Requests(e)
    ensures |run.nodes| == |ids| && run.nodes[k] in run.whole && e in run.whole[run.nodes[k]].lists
    ensures ListHolds(run.whole, run.whole[run.nodes[k]].lists[e], level, e, db, unmarshal, ids, k)
  {
    var columns, records, at := ListComesFrom(run, level, e, db, unmarshal, ids, k);
  }

  lemma SingleIsSet(run: Run, level: Level, e: Edge, db: Database, unmarshal: Unmarshal, k: nat)
    requires RunLoaded(run, level, db, unmarshal) && k < |db.rows(level.path, level.bound)|
    requires e in {ProxyEdge, ParentEdge} && level.plan.Requests(e)
    ensures |run.nodes| == |db.rows(level.path, level.bound)| && run.nodes[k] in run.whole
    ensures SingleIs(run.whole, Field(run.whole[run.nodes[k]].singles, e), level, e, db, unmarshal, k)
  {
    var columns, records, at := SingleComesFrom(run, level, e, db, unmarshal, k);
  }

  // What an edge of either kind comes to, requested or not.
  lemma EdgeComesFrom(run: Run, level: Level, e: Edge, db: Database, unmarshal: Unmarshal, ids: seq<int>, k: nat)
    requires RunLoaded(run, level, db, unmarshal) && AreIds(ids, db.rows(level.path, level.bound)) && k < |ids|
    ensures |run.nodes| == |ids| && run.nodes[k] in run.whole
    ensures e in run.whole[run.nodes[k]].lists ==>
      ListHolds(run.whole, run.whole[run.nodes[k]].lists[e], level, e, db, unmarshal, ids, k)
    ensures e in {GroupsEdge, ProxiesEdge, ChildrenEdge} ==>
      (e in run.whole[run.nodes[k]].lists <==> level.plan.Requests(e))
    ensures e in {ProxyEdge, ParentEdge} && level.plan.Requests(e) ==>
      SingleIs(run.whole, Field(run.whole[run.nodes[k]].singles, e), level, e, db, unmarshal, k)
    ensures e in run.whole[run.nodes[k]].singles ==> level.plan.Requests(e)
  {
    if !level.plan.Requests(e) {
      UnrequestedIsNil(run, level, e, db, unmarshal, k);
    } else if e in {ProxyEdge, ParentEdge} {
      SingleIsSet(run, level, e, db, unmarshal, k);
      NoListFor(run, level, e, db, unmarshal, k);
    } else {
      ListIs(run, level, e, db, unmarshal, ids, k);
    }
  }

  lemma NoListFor(run: Run, level: Level, e: Edge, db: Database, unmarshal: Unmarshal, k: nat)
    requires RunLoaded(run, level, db, unmarshal) && k < |level.Records(db)| && e in {ProxyEdge, ParentEdge}
    ensures k < |run.nodes| && run.nodes[k] in run.whole && e !in run.whole[run.nodes[k]].lists
  {
    NodeKeepsContent(run, level, db, unmarshal, k);
    ListsAre(run, level, db, k);
  }

  // Every node of a loaded run holds what the answers say.
  lemma LoadedHolds(run: Run, level: Level, db: Database, unmarshal: Unmarshal, ids: seq<int>, k: nat)
    requires RunLoaded(run, level, db, unmarshal) && AreIds(ids, db.rows(level.path, level.bound)) && k < |ids|
    ensures NodeHolds(run, level, db, unmarshal, ids, k)
  {
    NodesComeFromRows(run, level, db, unmarshal, k);
    forall e: Edge
      ensures e in run.whole[run.nodes[k]].lists ==>
        ListHolds(run.whole, run.whole[run.nodes[k]].lists[e], level, e, db, unmarshal, ids, k)
    {
      EdgeComesFrom(run, level, e, db, unmarshal, ids, k);
    }
    EdgeComesFrom(run, level, GroupsEdge, db, unmarshal, ids, k);
    EdgeComesFrom(run, level, ProxiesEdge, db, unmarshal, ids, k);
    EdgeComesFrom(run, level, ChildrenEdge, db, unmarshal, ids, k);
    EdgeComesFrom(run, level, ProxyEdge, db, unmarshal, ids, k);
    EdgeComesFrom(run, level, ParentEdge, db, unmarshal, ids, k);
  }

  /**
   All of the query builder: the whole tree of queries, from the plan and the driver's answers. It succeeds exactly if
   every row it has to decode can be decoded and no row belongs to a node that was not asked for. Then its nodes stand
   in row order, each holds what the answers say, and the nested runs are those of the nested queries.
   */
  method All(plan: Plan, db: Database, unmarshal: Unmarshal, ghost ids: seq<int>, ghost proxyKeys: seq<int>,
             ghost parentKeys: seq<int>)
    returns (outcome: Outcome, nodes: seq<Entity>, ghost run: Run)
    requires plan.Valid() && db.Valid() && Bound(Level(plan.fields, plan, [], []), db, ids, proxyKeys, parentKeys)
    ensures outcome.Ok? <==>
      && (forall r :: r in db.rows([], []) ==>
        Decodable(ColumnList(plan.fields, plan.proxy.Some?, plan.parent.Some?), r, unmarshal))
      && (db.rows([], []) != [] ==> forall e ::
        && EdgeDecodable(Level(plan.fields, plan, [], []), e, db, unmarshal, ids, proxyKeys, parentKeys)
        && EdgeFits(Level(plan.fields, plan, [], []), e, db, ids, proxyKeys, parentKeys))
    ensures outcome.Ok? ==> nodes == run.nodes && |nodes| == |db.rows([], [])| && Current(run.whole)
    ensures outcome.Ok? ==> forall k :: 0 <= k < |ids| ==>
      NodeHolds(run, Level(plan.fields, plan, [], []), db, unmarshal, ids, k)
    ensures outcome.Ok? && run.parent.Some? ==>
      && plan.parent.Some? && parentKeys != []
      && RunLoaded(run.parent.value, ParentQuery(plan.parent.value, [], parentKeys), db, unmarshal)
    ensures outcome.Ok? && run.children.Some? ==>
      && plan.children.Some?
      && RunLoaded(run.children.value, ChildrenQuery(plan.children.value, [], ids), db, unmarshal)
  {
    ghost var level := Level(plan.fields, plan, [], []);
    outcome, nodes, run := SqlAll(Root(plan), db, unmarshal);
    ReadableMeans(level, db, unmarshal, ids, proxyKeys, parentKeys);
    HonestMeans(level, db, ids, proxyKeys, parentKeys);
    if outcome.Ok? {
      NodeCount(run, level, db, unmarshal);
      NestedRunsAre(run, level, db, unmarshal, ids, proxyKeys, parentKeys);
      forall k | 0 <= k < |ids| ensures NodeHolds(run, level, db, unmarshal, ids, k) {
        LoadedHolds(run, level, db, unmarshal, ids, k);
      }
    }
  }

  // A node of a run, on the heap.
  lemma NodeShows(run: Run, level: Level, db: Database, unmarshal: Unmarshal, k: nat)
    requires RunLoaded(run, level, db, unmarshal) && Current(run.whole) && k < |level.Records(db)|
    ensures |run.nodes| == |level.Records(db)| && run.nodes[k] in run.whole
    ensures ContentOf(run.nodes[k]) == run.whole[run.nodes[k]]
    ensures run.nodes[k].loadedTypes == level.plan.Edges()
  {
    NodeKeepsContent(run, level, db, unmarshal, k);
  }

  /**
   A run followed by GroupsOrErr, ProxiesOrErr or ChildrenOrErr on node k: NotLoaded if the edge was not requested, else
   the neighbours decoded from exactly the rows of the edge's query that are the node's, in that order.
   */
  method LoadThenListOrErr(level: Level, db: Database, unmarshal: Unmarshal, e: Edge, k: nat, ghost ids: seq<int>)
    returns (outcome: Outcome, r: Fetched<seq<Entity>>, ghost columns: seq<Column>, ghost records: seq<Record>,
             ghost at: seq<nat>)
    requires level.plan.Valid() && db.Valid() && e in {GroupsEdge, ProxiesEdge, ChildrenEdge}
    requires AreIds(ids, db.rows(level.path, level.bound)) && k < |ids|
    ensures outcome.Ok? <==> Readable(level, db, unmarshal) && Honest(level, db)
    ensures outcome.Ok? ==> !r.NotFound? && (r.NotLoaded? <==>
      match e
      case GroupsEdge => level.plan.groups.None?
      case ProxiesEdge => level.plan.proxies.None?
      case _ => level.plan.children.None?)
    ensures outcome.Ok? && r.Loaded? ==>
      && ListSource(level, e, db, ids, k, columns, records, at)
      && AllDecoded(r.value, columns, At(records, at), unmarshal)
  {
    columns, records, at := [], [], [];
    var nodes;
    ghost var run;
    outcome, nodes, run := SqlAll(level, db, unmarshal);
    if !outcome.Ok? {
      return outcome, NotLoaded, columns, records, at;
    }
    NodeShows(run, level, db, unmarshal, k);
    RequestedAre(level.plan);
    r := nodes[k].ListOrErr(e);
    if r.Loaded? {
      columns, records, at := ListComesFrom(run, level, e, db, unmarshal, ids, k);
      DecodedShows(run.whole, r.value, columns, At(records, at), unmarshal);
    }
  }

  // A single edge, on the heap.
  ghost predicate SingleHolds(columns: seq<Column>, records: seq<Record>, at: Option<nat>, unmarshal: Unmarshal,
                              single: Option<Entity>)
    requires at.Some? ==> at.value < |records|
    reads if single.Some? then {single.value} else {}
  {
    && (single.Some? <==> at.Some?)
    && (single.Some? ==> Decoded(single.value, columns, records[at.value], unmarshal))
  }

  lemma OneShows(state: State, e: Entity, columns: seq<Column>, record: Record, unmarshal: Unmarshal)
    requires Current(state) && e in state && DecodedAs(state[e], columns, record, unmarshal)
    ensures Decoded(e, columns, record, unmarshal)
  {
    assert ContentOf(e) == state[e];
  }

  // A requested to-one edge of node k, on the heap.
  lemma SingleShows(run: Run, level: Level, e: Edge, db: Database, unmarshal: Unmarshal, k: nat)
    returns (columns: seq<Column>, records: seq<Record>, at: Option<nat>)
    requires RunLoaded(run, level, db, unmarshal) && Current(run.whole) && k < |run.nodes|
    requires e in {ProxyEdge, ParentEdge} && level.plan.Requests(e) && k < |level.Records(db)|
    ensures SingleSource(level, e, db, k, columns, records, at)
    ensures SingleHolds(columns, records, at, unmarshal, Field(run.nodes[k].singles, e))
  {
    columns, records, at := SingleComesFrom(run, level, e, db, unmarshal, k);
    NodeShows(run, level, db, unmarshal, k);
    if at.Some? {
      OneShows(run.whole, run.nodes[k].singles[e], columns, records[at.value], unmarshal);
    }
  }

  // ProxyOrErr or ParentOrErr on node k of a run.
  method LookUpSingle(nodes: seq<Entity>, e: Edge, k: nat, ghost run: Run, ghost level: Level, ghost db: Database,
                      ghost unmarshal: Unmarshal)
    returns (r: Fetched<Entity>, ghost columns: seq<Column>, ghost records: seq<Record>, ghost at: Option<nat>)
    requires RunLoaded(run, level, db, unmarshal) && Current(run.whole) && nodes == run.nodes
    requires e in {ProxyEdge, ParentEdge} && k < |level.Records(db)| && k < |nodes|
    ensures r.NotLoaded? <==> !level.plan.Requests(e)
    ensures level.plan.Requests(e) ==>
      && SingleSource(level, e, db, k, columns, records, at)
      && SingleHolds(columns, records, at, unmarshal, if r.Loaded? then Some(r.value) else None)
  {
    columns, records, at := [], [], None;
    r := nodes[k].SingleOrErr(e);
    NodeShows(run, level, db, unmarshal, k);
    AllEdges(e);
    if level.plan.Requests(e) {
      columns, records, at := SingleShows(run, level, e, db, unmarshal, k);
    } else {
      UnrequestedIsNil(run, level, e, db, unmarshal, k);
    }
  }

  /**
   A run followed by ProxyOrErr or ParentOrErr on node k: NotLoaded if the edge was not requested; the neighbour decoded
   from the last row of the edge's query whose ID is the node's key; NotFound if there is no key or no such row.
   */
  method LoadThenSingleOrErr(level: Level, db: Database, unmarshal: Unmarshal, e: Edge, k: nat)
    returns (outcome: Outcome, r: Fetched<Entity>, ghost columns: seq<Column>, ghost records: seq<Record>,
             ghost at: Option<nat>)
    requires level.plan.Valid() && db.Valid() && e in {ProxyEdge, ParentEdge}
    requires k < |db.rows(level.path, level.bound)|
    ensures outcome.Ok? <==> Readable(level, db, unmarshal) && Honest(level, db)
    ensures outcome.Ok? ==>
      (r.NotLoaded? <==> if e == ProxyEdge then level.plan.proxy.None? else level.plan.parent.None?)
    ensures outcome.Ok? && !r.NotLoaded? ==>
      && SingleSource(level, e, db, k, columns, records, at)
      && SingleHolds(columns, records, at, unmarshal, if r.Loaded? then Some(r.value) else None)
  {
    columns, records, at := [], [], None;
    var nodes;
    ghost var run;
    outcome, nodes, run := SqlAll(level, db, unmarshal);
    r := NotLoaded;
    if outcome.Ok? {
      NodeCount(run, level, db, unmarshal);
      r, columns, records, at := LookUpSingle(nodes, e, k, run, level, db, unmarshal);
    }
  }
}
