/**
 Selecting other columns loads the same edges: two runs of backend/ent/account_query.go's sqlAll (lines 621-712) whose
 queries differ only in what they select (querySpec, lines 1036-1058), at any depth.
 */
module Projection {
  import opened Wrappers
  import opened Accounts
  import opened JoinSpec
  import opened EagerLoading
  import opened ColumnSelection
  import opened QuerySpec
  import opened AccountQuery

  // The same edges are requested, at every depth; the selections are free.
  ghost predicate SameShape(a: Plan, b: Plan) {
    && (a.groups.Some? <==> b.groups.Some?)
    && (a.proxy.Some? <==> b.proxy.Some?)
    && (a.proxies.Some? <==> b.proxies.Some?)
    && (a.parent.Some? <==> b.parent.Some?) && (a.parent.Some? ==> SameShape(a.parent.value, b.parent.value))
    && (a.children.Some? <==> b.children.Some?)
    && (a.children.Some? ==> SameShape(a.children.value, b.children.value))
  }

  // Two queries at the same place, which the driver therefore answers alike.
  ghost predicate Parallel(a: Level, b: Level) { a.path == b.path && a.bound == b.bound && SameShape(a.plan, b.plan) }

  // ---- What two selections make of one row ----

  // Same ID; and every column that both select, or neither, has the same content. A document may be selected more than
  // once, and is then unmarshalled onto itself as often.
  ghost predicate Agree(a: Content, b: Content, ca: seq<Column>, cb: seq<Column>) {
    && a.id == b.id
    && (forall c :: IsScalar(c) && (c in ca <==> c in cb) ==> Field(a.scalars, c) == Field(b.scalars, c))
    && (forall c :: IsDocument(c) && multiset(ca)[c] == multiset(cb)[c] ==>
        Field(a.documents, c) == Field(b.documents, c))
    && forall name :: (OtherColumn(name) in ca <==> OtherColumn(name) in cb) ==>
      Field(a.extras, name) == Field(b.extras, name)
  }

  // A document unmarshalled n times, starting from nil.
  ghost function Repeatedly(bytes: string, n: nat, unmarshal: Unmarshal): Option<Value> {
    if n == 0 then None else unmarshal(Repeatedly(bytes, n - 1, unmarshal), bytes)
  }

  ghost function TheDocument(value: Buffer, n: nat, unmarshal: Unmarshal): Option<Value> {
    if value.RawBytes? && value.bytes != "" then Repeatedly(value.bytes, n, unmarshal) else None
  }

  lemma CountStep(columns: seq<Column>, n: nat, c: Column)
    requires 0 < n <= |columns|
    ensures multiset(columns[..n])[c] == multiset(columns[..n - 1])[c] + if columns[n - 1] == c then 1 else 0
  {
    assert columns[..n] == columns[..n - 1] + [columns[n - 1]];
  }

  lemma {:induction false} DocumentByCount(columns: seq<Column>, record: Record, n: nat, c: Column,
                                           unmarshal: Unmarshal)
    requires n <= |columns|
    ensures LastDocument(columns, Cells(columns, record), n, c, None, unmarshal) ==
      TheDocument(record(c), multiset(columns[..n])[c], unmarshal)
  {
    if n != 0 {
      DocumentByCount(columns, record, n - 1, c, unmarshal);
      CountStep(columns, n, c);
    }
  }

  lemma {:induction false} ExtraByMembership(columns: seq<Column>, record: Record, n: nat, name: string)
    requires n <= |columns|
    ensures LastSelected(columns, Cells(columns, record), n, name, None) ==
      if OtherColumn(name) in columns[..n] then Some(record(OtherColumn(name))) else None
  {
    if n != 0 {
      ExtraByMembership(columns, record, n - 1, name);
      assert columns[..n] == columns[..n - 1] + [columns[n - 1]];
    }
  }

  lemma RowAgrees(a: Content, b: Content, ca: seq<Column>, cb: seq<Column>, record: Record, unmarshal: Unmarshal)
    requires DecodedAs(a, ca, record, unmarshal) && DecodedAs(b, cb, record, unmarshal)
    ensures Agree(a, b, ca, cb)
  {
    assert ca[..|ca|] == ca && cb[..|cb|] == cb;
    forall c | IsDocument(c) && multiset(ca)[c] == multiset(cb)[c]
      ensures Field(a.documents, c) == Field(b.documents, c)
    {
      DocumentByCount(ca, record, |ca|, c, unmarshal);
      DocumentByCount(cb, record, |cb|, c, unmarshal);
    }
    forall name | OtherColumn(name) in ca <==> OtherColumn(name) in cb
      ensures Field(a.extras, name) == Field(b.extras, name)
    {
      ExtraByMembership(ca, record, |ca|, name);
      ExtraByMembership(cb, record, |cb|, name);
    }
  }

  // Under one selection the contents are equal, field by field.
  lemma SameSelectionAgreesFully(a: Content, b: Content, columns: seq<Column>)
    requires Agree(a, b, columns, columns)
    ensures a.id == b.id && forall c :: IsScalar(c) ==> Field(a.scalars, c) == Field(b.scalars, c)
    ensures forall c :: IsDocument(c) ==> Field(a.documents, c) == Field(b.documents, c)
    ensures a.extras == b.extras
  {
    forall name ensures name in a.extras <==> name in b.extras {
      assert Field(a.extras, name) == Field(b.extras, name);
    }
    forall name | name in a.extras ensures a.extras[name] == b.extras[name] {
      assert Field(a.extras, name) == Field(b.extras, name);
    }
  }

  ghost predicate AllAgree(sa: State, sb: State, a: seq<Entity>, b: seq<Entity>, ca: seq<Column>, cb: seq<Column>) {
    && |a| == |b|
    && forall j :: 0 <= j < |a| ==> a[j] in sa && b[j] in sb && Agree(sa[a[j]], sb[b[j]], ca, cb)
  }

  lemma RowsAgree(sa: State, sb: State, a: seq<Entity>, b: seq<Entity>, ca: seq<Column>, cb: seq<Column>,
                  records: seq<Record>, unmarshal: Unmarshal)
    requires AllDecodedAs(sa, a, ca, records, unmarshal) && AllDecodedAs(sb, b, cb, records, unmarshal)
    ensures AllAgree(sa, sb, a, b, ca, cb)
  {
    forall j | 0 <= j < |a| ensures Agree(sa[a[j]], sb[b[j]], ca, cb) {
      RowAgrees(sa[a[j]], sb[b[j]], ca, cb, records[j], unmarshal);
    }
  }

  // ---- Runs ----

  // Neighbours of an edge to another table, if it was requested and had anything to ask for.
  ghost predicate NeighborsAgree(sa: State, sb: State, a: seq<Entity>, b: seq<Entity>, ca: Option<seq<Column>>,
                                 cb: Option<seq<Column>>)
  {
    if ca.Some? && cb.Some? then AllAgree(sa, sb, a, b, ca.value, cb.value) else a == b == []
  }

  // The neighbours an edge can hold.
  function NeighborsOf(run: Run, e: Edge): seq<Entity> {
    match e
    case GroupsEdge => run.groups
    case ProxyEdge => run.proxy
    case ProxiesEdge => run.proxies
    case ParentEdge => if run.parent.Some? then run.parent.value.nodes else []
    case ChildrenEdge => if run.children.Some? then run.children.value.nodes else []
  }

  // The same neighbour of the two runs.
  ghost predicate Same(x: Entity, y: Entity, a: seq<Entity>, b: seq<Entity>) {
    exists j :: 0 <= j < |a| && j < |b| && x == a[j] && y == b[j]
  }

  // The same neighbours in the same order.
  ghost predicate SameLists(xs: seq<Entity>, ys: seq<Entity>, a: seq<Entity>, b: seq<Entity>) {
    |xs| == |ys| && forall i :: 0 <= i < |xs| ==> Same(xs[i], ys[i], a, b)
  }

  // Every list edge is set in both or in neither, and holds the same neighbours.
  ghost predicate SameListEdges(x: map<Edge, seq<Entity>>, y: map<Edge, seq<Entity>>, a: Run, b: Run) {
    && x.Keys == y.Keys
    && forall e :: e in x.Keys ==> SameLists(x[e], y[e], NeighborsOf(a, e), NeighborsOf(b, e))
  }

  ghost predicate SameSingleEdges(x: map<Edge, Entity>, y: map<Edge, Entity>, a: Run, b: Run) {
    && x.Keys == y.Keys
    && forall e :: e in x.Keys ==> Same(x[e], y[e], NeighborsOf(a, e), NeighborsOf(b, e))
  }

  // A node of both runs.
  ghost predicate SameEdges(x: Content, y: Content, a: Run, b: Run) {
    x.loadedTypes == y.loadedTypes && SameListEdges(x.lists, y.lists, a, b)
      && SameSingleEdges(x.singles, y.singles, a, b)
  }

  // Nodes and neighbours agree, and every edge holds the same neighbours.
  ghost predicate OwnAlike(a: Run, b: Run, la: Level, lb: Level) {
    && AllAgree(a.state, b.state, a.nodes, b.nodes, la.Columns(), lb.Columns())
    && NeighborsAgree(a.state, b.state, a.groups, b.groups, la.plan.groups, lb.plan.groups)
    && NeighborsAgree(a.state, b.state, a.proxy, b.proxy, la.plan.proxy, lb.plan.proxy)
    && NeighborsAgree(a.state, b.state, a.proxies, b.proxies, la.plan.proxies, lb.plan.proxies)
    && forall k :: 0 <= k < |a.nodes| ==> SameEdges(a.state[a.nodes[k]], b.state[b.nodes[k]], a, b)
  }

  // And so on in the nested runs.
  ghost predicate RunsAlike(a: Run, b: Run, la: Level, lb: Level, db: Database)
    decreases la.plan
  {
    && OwnAlike(a, b, la, lb)
    && (a.parent.Some? <==> b.parent.Some?) && (a.children.Some? <==> b.children.Some?)
    && (a.parent.Some? ==>
          && la.plan.parent.Some? && lb.plan.parent.Some?
          && RunsAlike(a.parent.value, b.parent.value, la.Parent(db), lb.Parent(db), db))
    && (a.children.Some? ==>
          && la.plan.children.Some? && lb.plan.children.Some?
          && RunsAlike(a.children.value, b.children.value, la.Children(db), lb.Children(db), db))
  }

  lemma ParallelNested(a: Level, b: Level, db: Database)
    requires Parallel(a, b)
    ensures a.Records(db) == b.Records(db) && a.Groups(db) == b.Groups(db) && a.Proxies(db) == b.Proxies(db)
    ensures a.Proxy(db) == b.Proxy(db) && (a.AsksProxy(db) <==> b.AsksProxy(db))
      && (a.AsksParent(db) <==> b.AsksParent(db))
    ensures a.plan.parent.Some? ==> b.plan.parent.Some? && Parallel(a.Parent(db), b.Parent(db))
    ensures a.plan.children.Some? ==> b.plan.children.Some? && Parallel(a.Children(db), b.Children(db))
  {}

  // Whether the answers respect what was asked for does not depend on any selection.
  lemma {:induction false} HonestAlike(a: Level, b: Level, db: Database)
    requires Parallel(a, b)
    ensures Honest(a, db) <==> Honest(b, db)
    decreases a.plan, 1
  {
    ParallelNested(a, b, db);
    forall e | e in ALL_EDGES ensures EdgeHonest(a, e, db) <==> EdgeHonest(b, e, db) {
      EdgeHonestAlike(a, b, e, db);
    }
  }

  lemma {:induction false} EdgeHonestAlike(a: Level, b: Level, e: Edge, db: Database)
    requires Parallel(a, b)
    ensures EdgeHonest(a, e, db) <==> EdgeHonest(b, e, db)
    decreases a.plan, 0
  {
    ParallelNested(a, b, db);
    if e == ParentEdge && a.plan.parent.Some? {
      HonestAlike(a.Parent(db), b.Parent(db), db);
    }
    if e == ChildrenEdge && a.plan.children.Some? {
      HonestAlike(a.Children(db), b.Children(db), db);
    }
  }

  lemma {:induction false} PickedAlike(a: seq<Entity>, b: seq<Entity>, keys: seq<int>, links: seq<Link>, out: int)
    requires |a| == |b| == |keys|
    ensures SameLists(Picked(a, keys, links, out), Picked(b, keys, links, out), a, b)
  {
    if keys != [] {
      var last := |keys| - 1;
      PickedAlike(a[..last], b[..last], keys[..last], links, out);
      var xs, ys := Picked(a[..last], keys[..last], links, out), Picked(b[..last], keys[..last], links, out);
      forall i | 0 <= i < |xs| ensures Same(xs[i], ys[i], a, b) {
        assert Same(xs[i], ys[i], a[..last], b[..last]);
      }
      assert Same(a[last], b[last], a, b);
    }
  }

  lemma {:induction false} ChildrenAlike(a: seq<Entity>, b: seq<Entity>, fks: seq<Option<int>>, n: nat, id: int)
    requires n <= |a| == |b| == |fks|
    ensures SameLists(ChildrenOf(a, fks, n, id), ChildrenOf(b, fks, n, id), a, b)
  {
    if n != 0 {
      ChildrenAlike(a, b, fks, n - 1, id);
      assert Same(a[n - 1], b[n - 1], a, b);
    }
  }

  lemma SharesAlike(a: seq<Entity>, b: seq<Entity>, links: seq<Link>, ids: seq<int>, k: nat)
    requires |a| == |b| == |FirstIds(links)| && k < |ids|
    ensures SameLists(Share(a, links, ids, k), Share(b, links, ids, k), a, b)
  {
    PickedAlike(a, b, FirstIds(links), links, ids[k]);
  }

  lemma ChildListsAlike(a: seq<Entity>, b: seq<Entity>, records: seq<Record>, ids: seq<int>, k: nat)
    requires |a| == |b| == |records| && k < |ids|
    ensures SameLists(ChildList(records, a, ids, k), ChildList(records, b, ids, k), a, b)
  {
    ChildrenAlike(a, b, RecordKeys(records, ParentAccountID), |records|, ids[k]);
  }

  lemma OneMoreList(x: map<Edge, seq<Entity>>, y: map<Edge, seq<Entity>>, e: Edge, xs: Option<seq<Entity>>,
                    ys: Option<seq<Entity>>, a: Run, b: Run)
    requires SameListEdges(x, y, a, b) && (xs.Some? <==> ys.Some?)
    requires xs.Some? ==> SameLists(xs.value, ys.value, NeighborsOf(a, e), NeighborsOf(b, e))
    ensures SameListEdges(With(x, e, xs), With(y, e, ys), a, b)
  {}

  lemma JoinListsAlike(a: Run, b: Run, la: Level, lb: Level, db: Database, k: nat)
    requires Parallel(la, lb) && Shaped(a, la, db) && Shaped(b, lb, db) && k < |a.nodes| == |b.nodes|
    ensures SameListEdges(JoinLists(a.groups, a.proxies, la, db, k), JoinLists(b.groups, b.proxies, lb, db, k), a, b)
  {
    var groups, proxies, ids := la.Groups(db), la.Proxies(db), la.Ids(db);
    if la.plan.groups.Some? {
      SharesAlike(a.groups, b.groups, Links(groups), ids, k);
    }
    if la.plan.proxies.Some? {
      SharesAlike(a.proxies, b.proxies, Links(proxies), ids, k);
    }
    var ga, gb := JoinList(la.plan.groups, groups, a.groups, ids, k),
        JoinList(lb.plan.groups, groups, b.groups, ids, k);
    OneMoreList(map[], map[], GroupsEdge, ga, gb, a, b);
    OneMoreList(With(map[], GroupsEdge, ga), With(map[], GroupsEdge, gb), ProxiesEdge,
                JoinList(la.plan.proxies, proxies, a.proxies, ids, k),
                JoinList(lb.plan.proxies, proxies, b.proxies, ids, k), a, b);
  }

  lemma ListsAlike(a: Run, b: Run, la: Level, lb: Level, db: Database, k: nat)
    requires Parallel(la, lb) && Shaped(a, la, db) && Shaped(b, lb, db) && k < |a.nodes|
    ensures k < |b.nodes| && SameListEdges(ListsOf(a, la, db, k), ListsOf(b, lb, db, k), a, b)
  {
    ParallelNested(la, lb, db);
    JoinListsAlike(a, b, la, lb, db, k);
    if la.plan.children.Some? {
      var records, ids := la.Children(db).Records(db), la.Ids(db);
      ChildListsAlike(a.children.value.nodes, b.children.value.nodes, records, ids, k);
      OneMoreList(JoinLists(a.groups, a.proxies, la, db, k), JoinLists(b.groups, b.proxies, lb, db, k), ChildrenEdge,
                  Some(ChildList(records, a.children.value.nodes, ids, k)),
                  Some(ChildList(records, b.children.value.nodes, ids, k)), a, b);
    }
  }

  // What a key names, in both runs.
  lemma KeyAlike(a: seq<Entity>, b: seq<Entity>, records: seq<Record>, key: Option<int>)
    requires |a| == |b|
    ensures KeyEntity(records, a, key).Some? <==> KeyEntity(records, b, key).Some?
    ensures KeyEntity(records, a, key).Some? ==>
      Same(KeyEntity(records, a, key).value, KeyEntity(records, b, key).value, a, b)
  {
    if KeyEntity(records, a, key).Some? {
      var j := LastAt(RecordIds(records), |records|, key.value);
      assert Same(a[j], b[j], a, b);
    }
  }

  lemma SinglesAlike(a: Run, b: Run, la: Level, lb: Level, db: Database, k: nat)
    requires Parallel(la, lb) && Shaped(a, la, db) && Shaped(b, lb, db) && k < |a.nodes| && |a.proxy| == |b.proxy|
    requires a.parent.Some? ==> b.parent.Some? && |a.parent.value.nodes| == |b.parent.value.nodes|
    ensures k < |b.nodes| && SameSingleEdges(SinglesOf(a, la, db, k), SinglesOf(b, lb, db, k), a, b)
  {
    ParallelNested(la, lb, db);
    KeyAlike(a.proxy, b.proxy, la.Proxy(db), la.Keys(db, ProxyID)[k]);
    if a.parent.Some? {
      KeyAlike(a.parent.value.nodes, b.parent.value.nodes, la.Parent(db).Records(db), la.Keys(db, ParentAccountID)[k]);
    }
  }

  lemma NodesAlike(a: Run, b: Run, la: Level, lb: Level, db: Database, unmarshal: Unmarshal, k: nat)
    requires Parallel(la, lb) && Shaped(a, la, db) && Shaped(b, lb, db) && k < |a.nodes| && |a.proxy| == |b.proxy|
    requires a.parent.Some? ==> b.parent.Some? && |a.parent.value.nodes| == |b.parent.value.nodes|
    requires NodesBuilt(a, la, db, unmarshal) && NodesBuilt(b, lb, db, unmarshal)
    ensures k < |b.nodes| && SameEdges(a.state[a.nodes[k]], b.state[b.nodes[k]], a, b)
  {
    ListsAlike(a, b, la, lb, db, k);
    SinglesAlike(a, b, la, lb, db, k);
    SameRequests(la.plan, lb.plan);
  }

  lemma SameRequests(a: Plan, b: Plan)
    requires SameShape(a, b)
    ensures a.Edges() == b.Edges()
  {
    forall e ensures a.Requests(e) <==> b.Requests(e) {}
  }

  lemma JoinsAgree(sa: State, sb: State, a: seq<Entity>, b: seq<Entity>, ca: Option<seq<Column>>,
                   cb: Option<seq<Column>>, rows: seq<JoinRow>, unmarshal: Unmarshal)
    requires (ca.Some? <==> cb.Some?) && JoinBuilt(sa, ca, rows, a, unmarshal) && JoinBuilt(sb, cb, rows, b, unmarshal)
    ensures NeighborsAgree(sa, sb, a, b, ca, cb)
  {
    if ca.Some? {
      RowsAgree(sa, sb, a, b, ca.value, cb.value, FirstRecords(rows), unmarshal);
    }
  }

  lemma ProxiesAgree(sa: State, sb: State, a: seq<Entity>, b: seq<Entity>, la: Level, lb: Level, db: Database,
                     unmarshal: Unmarshal)
    requires Parallel(la, lb) && ProxyBuilt(sa, la, db, a, unmarshal) && ProxyBuilt(sb, lb, db, b, unmarshal)
    ensures NeighborsAgree(sa, sb, a, b, la.plan.proxy, lb.plan.proxy)
  {
    ParallelNested(la, lb, db);
    if la.AsksProxy(db) {
      RowsAgree(sa, sb, a, b, la.plan.proxy.value, lb.plan.proxy.value, la.Proxy(db), unmarshal);
    }
  }

  lemma OwnMatch(a: Run, b: Run, la: Level, lb: Level, db: Database, unmarshal: Unmarshal)
    requires Parallel(la, lb) && RunLoaded(a, la, db, unmarshal) && RunLoaded(b, lb, db, unmarshal)
    requires la.Records(db) != []
    requires a.parent.Some? ==> b.parent.Some? && |a.parent.value.nodes| == |b.parent.value.nodes|
    ensures OwnAlike(a, b, la, lb)
  {
    ParallelNested(la, lb, db);
    LoadedOwn(a, la, db, unmarshal);
    LoadedOwn(b, lb, db, unmarshal);
    RowsAgree(a.state, b.state, a.nodes, b.nodes, la.Columns(), lb.Columns(), la.Records(db), unmarshal);
    JoinsAgree(a.state, b.state, a.groups, b.groups, la.plan.groups, lb.plan.groups, la.Groups(db), unmarshal);
    ProxiesAgree(a.state, b.state, a.proxy, b.proxy, la, lb, db, unmarshal);
    JoinsAgree(a.state, b.state, a.proxies, b.proxies, la.plan.proxies, lb.plan.proxies, la.Proxies(db), unmarshal);
    forall k | 0 <= k < |a.nodes| ensures SameEdges(a.state[a.nodes[k]], b.state[b.nodes[k]], a, b) {
      NodesAlike(a, b, la, lb, db, unmarshal, k);
    }
  }

  // Loaded runs of parallel queries are alike.
  lemma {:induction false} RunsMatch(a: Run, b: Run, la: Level, lb: Level, db: Database, unmarshal: Unmarshal)
    requires Parallel(la, lb) && RunLoaded(a, la, db, unmarshal) && RunLoaded(b, lb, db, unmarshal)
    ensures RunsAlike(a, b, la, lb, db)
    decreases la.plan
  {
    if la.Records(db) != [] {
      NestedMatch(a, b, la, lb, db, unmarshal);
      OwnMatch(a, b, la, lb, db, unmarshal);
    } else {
      assert lb.Records(db) == [];
    }
  }

  lemma {:induction false} NestedMatch(a: Run, b: Run, la: Level, lb: Level, db: Database, unmarshal: Unmarshal)
    requires Parallel(la, lb) && RunLoaded(a, la, db, unmarshal) && RunLoaded(b, lb, db, unmarshal)
    requires la.Records(db) != []
    ensures (a.parent.Some? <==> b.parent.Some?) && (a.children.Some? <==> b.children.Some?)
    ensures a.parent.Some? ==>
      && la.plan.parent.Some? && lb.plan.parent.Some? && |a.parent.value.nodes| == |b.parent.value.nodes|
      && RunsAlike(a.parent.value, b.parent.value, la.Parent(db), lb.Parent(db), db)
    ensures a.children.Some? ==>
      && la.plan.children.Some? && lb.plan.children.Some?
      && RunsAlike(a.children.value, b.children.value, la.Children(db), lb.Children(db), db)
    decreases la.plan, 0
  {
    ParallelNested(la, lb, db);
    if a.parent.Some? {
      NodeCount(a.parent.value, la.Parent(db), db, unmarshal);
      NodeCount(b.parent.value, lb.Parent(db), db, unmarshal);
      RunsMatch(a.parent.value, b.parent.value, la.Parent(db), lb.Parent(db), db, unmarshal);
    }
    if a.children.Some? {
      RunsMatch(a.children.value, b.children.value, la.Children(db), lb.Children(db), db, unmarshal);
    }
  }

  /**
   Two runs that request the same edges with different selections, at any depth. Both succeed if their documents decode
   and the answers respect what was asked for, which is one condition for both; and then they hold the same nodes with
   the same edges to the same neighbours, all equal in ID and in every column selected alike.
   */
  method ProjectionIsInvisible(a: Plan, b: Plan, db: Database, unmarshal: Unmarshal)
    returns (first: Outcome, second: Outcome, ghost ra: Run, ghost rb: Run)
    requires a.Valid() && b.Valid() && db.Valid() && SameShape(a, b)
    ensures Honest(Root(a), db) <==> Honest(Root(b), db)
    ensures first.Ok? <==> Readable(Root(a), db, unmarshal) && Honest(Root(a), db)
    ensures second.Ok? <==> Readable(Root(b), db, unmarshal) && Honest(Root(a), db)
    ensures first.Ok? && second.Ok? ==>
      && RunLoaded(ra, Root(a), db, unmarshal) && RunLoaded(rb, Root(b), db, unmarshal)
      && Current(ra.whole) && Current(rb.whole) && RunsAlike(ra, rb, Root(a), Root(b), db)
  {
    var nodes;
    HonestAlike(Root(a), Root(b), db);
    first, nodes, ra := SqlAll(Root(a), db, unmarshal);
    second, nodes, rb := SqlAll(Root(b), db, unmarshal);
    if first.Ok? && second.Ok? {
      RunsMatch(ra, rb, Root(a), Root(b), db, unmarshal);
    }
  }
}
