/**
 Where the edges of a loaded run come from, told on the driver's answers alone: the query each edge sends, and the
 positions of the rows it keeps (backend/ent/account_query.go, lines 714-932).
 */
module RowSources {
  import opened Wrappers
  import opened Accounts
  import opened JoinSpec
  import opened EagerLoading
  import opened ColumnSelection
  import opened QuerySpec

  // ---- What a query binds ----

  // The IDs of the rows, row by row.
  ghost predicate AreIds(ids: seq<int>, records: seq<Record>) {
    |ids| == |records| && forall i :: 0 <= i < |ids| ==> ids[i] == Int64Of(records[i](ID))
  }

  // Key i stands in row at[i] and in no row before it.
  ghost predicate FirstKeys(ks: seq<int>, records: seq<Record>, column: Column, at: seq<nat>) {
    && |at| == |ks| && (forall i, j :: 0 <= i < j < |at| ==> at[i] < at[j])
    && forall i :: 0 <= i < |ks| ==>
      && at[i] < |records| && records[at[i]](column) == NullInt64(Some(ks[i]))
      && forall j :: 0 <= j < at[i] ==> records[j](column) != NullInt64(Some(ks[i]))
  }

  // The distinct keys in a nullable column, in order of first appearance.
  ghost predicate AreKeys(ks: seq<int>, records: seq<Record>, column: Column) {
    && (exists at: seq<nat> :: FirstKeys(ks, records, column, at))
    && forall j, v :: 0 <= j < |records| && records[j](column) == NullInt64(Some(v)) ==> v in ks
  }

  // ---- Which rows it keeps ----

  // No row before it has the same ID.
  ghost predicate FirstOfItsId(rows: seq<JoinRow>, i: nat)
    requires i < |rows|
  {
    forall j :: 0 <= j < i ==> Int64Of(rows[j].record(ID)) != Int64Of(rows[i].record(ID))
  }

  // Some row links the node's ID to the ID of row i.
  ghost predicate LinkedTo(rows: seq<JoinRow>, out: int, i: nat)
    requires i < |rows|
  {
    exists j :: 0 <= j < |rows| && Int64Of(rows[j].out) == out
      && Int64Of(rows[j].record(ID)) == Int64Of(rows[i].record(ID))
  }

  // A join gives node k, for each neighbour linked to it, the row in which that neighbour came first, in row order; and
  // nothing if a later node has the same ID.
  ghost predicate JoinedAt(rows: seq<JoinRow>, ids: seq<int>, k: nat, at: seq<nat>)
    requires k < |ids|
  {
    if exists j :: k < j < |ids| && ids[j] == ids[k] then at == []
    else
      && (forall i, j :: 0 <= i < j < |at| ==> at[i] < at[j])
      && forall i :: i in at <==> 0 <= i < |rows| && FirstOfItsId(rows, i) && LinkedTo(rows, ids[k], i)
  }

  // The children's query gives node k the rows that name its ID, in row order; again nothing if a later node has it.
  ghost predicate ChildrenAt(rows: seq<Record>, ids: seq<int>, k: nat, at: seq<nat>)
    requires k < |ids|
  {
    if exists j :: k < j < |ids| && ids[j] == ids[k] then at == []
    else
      && (forall i, j :: 0 <= i < j < |at| ==> at[i] < at[j])
      && forall i :: i in at <==> 0 <= i < |rows| && rows[i](ParentAccountID) == NullInt64(Some(ids[k]))
  }

  // A to-one edge takes the last row whose ID is the key.
  ghost predicate SingleAt(rows: seq<Record>, key: Buffer, at: Option<nat>) {
    match at
    case None => forall i :: 0 <= i < |rows| ==> key != NullInt64(Some(Int64Of(rows[i](ID))))
    case Some(j) =>
      && j < |rows| && key == NullInt64(Some(Int64Of(rows[j](ID))))
      && forall i :: j < i < |rows| ==> Int64Of(rows[i](ID)) != Int64Of(rows[j](ID))
  }

  /**
   What a list edge of node k is read from, given the IDs of the query's rows: the columns its query selects, the rows
   the driver answers it with, and the positions of those that the node gets.
   */
  ghost predicate ListSource(level: Level, e: Edge, db: Database, ids: seq<int>, k: nat, columns: seq<Column>,
                             records: seq<Record>, at: seq<nat>)
    requires k < |ids|
  {
    && (forall i :: 0 <= i < |at| ==> at[i] < |records|)
    && match e
       case GroupsEdge =>
         var rows := db.joins(level.path + [GroupsEdge], ids);
         level.plan.groups == Some(columns) && records == JoinRecords(rows) && JoinedAt(rows, ids, k, at)
       case ProxiesEdge =>
         var rows := db.joins(level.path + [ProxiesEdge], ids);
         level.plan.proxies == Some(columns) && records == JoinRecords(rows) && JoinedAt(rows, ids, k, at)
       case ChildrenEdge =>
         && level.plan.children.Some? && columns == ChildColumns(level.plan.children.value)
         && records == db.rows(level.path + [ChildrenEdge], ids) && ChildrenAt(records, ids, k, at)
       case _ => false
  }

  // The columns of a nested query of children: the key it is read by is among them, whatever was selected.
  function ChildColumns(p: Plan): seq<Column> {
    ColumnList(if p.fields == [] || ParentAccountID in p.fields then p.fields else p.fields + [ParentAccountID],
               p.proxy.Some?, p.parent.Some?)
  }

  // What a to-one edge of node k is read from: its query asks for the keys in the edge's own column.
  ghost predicate SingleSource(level: Level, e: Edge, db: Database, k: nat, columns: seq<Column>, records: seq<Record>,
                               at: Option<nat>)
    requires k < |db.rows(level.path, level.bound)|
  {
    var own := db.rows(level.path, level.bound);
    && (at.Some? ==> at.value < |records|)
    && match e
       case ProxyEdge =>
         && level.plan.proxy == Some(columns) && SingleAt(records, own[k](ProxyID), at)
         && exists ks :: AreKeys(ks, own, ProxyID) && records == db.rows(level.path + [ProxyEdge], ks)
       case ParentEdge =>
         && level.plan.parent.Some? && SingleAt(records, own[k](ParentAccountID), at)
         && columns == ColumnList(level.plan.parent.value.fields, level.plan.parent.value.proxy.Some?,
                                  level.plan.parent.value.parent.Some?)
         && exists ks :: AreKeys(ks, own, ParentAccountID) && records == db.rows(level.path + [ParentEdge], ks)
       case _ => false
  }

  function JoinRecords(rows: seq<JoinRow>): seq<Record> {
    seq(|rows|, i requires 0 <= i < |rows| => rows[i].record)
  }

  // The rows at these positions.
  function At<T>(s: seq<T>, at: seq<nat>): seq<T>
    requires forall i :: 0 <= i < |at| ==> at[i] < |s|
  {
    seq(|at|, i requires 0 <= i < |at| => s[at[i]])
  }

  // ---- The specification functions give exactly these ----

  lemma IdsAre(records: seq<Record>, ids: seq<int>)
    requires AreIds(ids, records)
    ensures RecordIds(records) == ids
  {}

  lemma FirstKeysGrow(ks: seq<int>, records: seq<Record>, column: Column, at: seq<nat>, n: nat, v: int)
    requires n < |records| && FirstKeys(ks, records, column, at) && (forall i :: 0 <= i < |at| ==> at[i] < n)
    requires records[n](column) == NullInt64(Some(v))
    requires forall j :: 0 <= j < n ==> records[j](column) != NullInt64(Some(v))
    ensures FirstKeys(ks + [v], records, column, at + [n])
  {}

  // Wanted gives the keys of the first n rows.
  lemma {:induction false} WantedStands(records: seq<Record>, column: Column, n: nat) returns (at: seq<nat>)
    requires n <= |records|
    ensures FirstKeys(Wanted(RecordKeys(records, column), n), records, column, at)
    ensures forall i :: 0 <= i < |at| ==> at[i] < n
    ensures forall j, v :: 0 <= j < n && records[j](column) == NullInt64(Some(v)) ==>
      v in Wanted(RecordKeys(records, column), n)
  {
    at := [];
    if n != 0 {
      at := WantedStands(records, column, n - 1);
      var keys := RecordKeys(records, column);
      if keys[n - 1].Some? && keys[n - 1].value !in Wanted(keys, n - 1) {
        FirstKeysGrow(Wanted(keys, n - 1), records, column, at, n - 1, keys[n - 1].value);
        at := at + [n - 1];
      }
    }
  }

  lemma EmptyAlike(a: seq<int>, b: seq<int>)
    requires forall v: int :: v in a <==> v in b
    ensures a == [] <==> b == []
  {
    if a != [] {
      var v := a[0];
      assert v in b;
    }
    if b != [] {
      var v := b[0];
      assert v in a;
    }
  }

  // And only one sequence is that.
  lemma {:induction false} KeysAreUnique(records: seq<Record>, column: Column, a: seq<int>, b: seq<int>, atA: seq<nat>,
                                         atB: seq<nat>)
    requires FirstKeys(a, records, column, atA) && FirstKeys(b, records, column, atB)
    requires forall v: int :: v in a <==> v in b
    ensures a == b
  {
    EmptyAlike(a, b);
    if a != [] {
      KeysStartAlike(records, column, a, b, atA, atB);
      forall v ensures v in a[1..] <==> v in b[1..] {
        assert v in a[1..] <==> v in a && v != a[0];
        assert v in b[1..] <==> v in b && v != b[0];
      }
      KeysAreUnique(records, column, a[1..], b[1..], atA[1..], atB[1..]);
    }
  }

  lemma KeysStartAlike(records: seq<Record>, column: Column, a: seq<int>, b: seq<int>, atA: seq<nat>, atB: seq<nat>)
    requires FirstKeys(a, records, column, atA) && FirstKeys(b, records, column, atB) && a != [] && b != []
    requires forall v: int :: v in a <==> v in b
    ensures a[0] == b[0]
    ensures forall i :: 0 < i < |a| ==> a[i] != a[0]
    ensures forall i :: 0 < i < |b| ==> b[i] != b[0]
  {
    assert a[0] in a && b[0] in b;
    var i :| 0 <= i < |a| && a[i] == b[0];
    var j :| 0 <= j < |b| && b[j] == a[0];
    assert atB[0] == atA[i] && atA[0] == atB[j];
  }

  lemma WantedAreKeys(records: seq<Record>, column: Column)
    ensures AreKeys(Wanted(RecordKeys(records, column), |records|), records, column)
  {
    var at := WantedStands(records, column, |records|);
  }

  lemma KeysAre(records: seq<Record>, column: Column, ks: seq<int>)
    requires AreKeys(ks, records, column)
    ensures Wanted(RecordKeys(records, column), |records|) == ks
  {
    var keys := RecordKeys(records, column);
    var wanted := Wanted(keys, |records|);
    var at := WantedStands(records, column, |records|);
    var at' :| FirstKeys(ks, records, column, at');
    forall v ensures v in wanted <==> v in ks {
      if v in wanted {
        var i :| 0 <= i < |wanted| && wanted[i] == v;
        assert records[at[i]](column) == NullInt64(Some(v));
      }
      if v in ks {
        var i :| 0 <= i < |ks| && ks[i] == v;
        assert records[at'[i]](column) == NullInt64(Some(v));
      }
    }
    KeysAreUnique(records, column, wanted, ks, at, at');
  }

  lemma AtWithin<T>(s: seq<T>, n: nat, at: seq<nat>)
    requires n <= |s| && forall i :: 0 <= i < |at| ==> at[i] < n
    ensures At(s[..n], at) == At(s, at)
  {}

  lemma AtOneMore<T>(s: seq<T>, at: seq<nat>, i: nat)
    requires i < |s| && forall k :: 0 <= k < |at| ==> at[k] < |s|
    ensures At(s, at + [i]) == At(s, at) + [s[i]]
  {}

  // These are the positions whose key is linked, in order.
  ghost predicate LinkedPositions(keys: seq<int>, links: seq<Link>, out: int, at: seq<nat>) {
    && (forall i :: 0 <= i < |at| ==> at[i] < |keys|)
    && (forall i, j :: 0 <= i < j < |at| ==> at[i] < at[j])
    && forall i :: i in at <==> 0 <= i < |keys| && Link(out, keys[i]) in links
  }

  lemma LinkedPositionsGrow(keys: seq<int>, links: seq<Link>, out: int, at: seq<nat>, n: nat)
    requires n < |keys| && LinkedPositions(keys[..n], links, out, at)
    ensures LinkedPositions(keys[..n + 1], links, out, if Link(out, keys[n]) in links then at + [n] else at)
  {
    var more := if Link(out, keys[n]) in links then at + [n] else at;
    forall i ensures i in more <==> 0 <= i < n + 1 && Link(out, keys[..n + 1][i]) in links {
      assert i in at <==> 0 <= i < n && Link(out, keys[..n][i]) in links;
    }
  }

  // The positions Picked picks.
  lemma {:induction false} PickedAt<T>(all: seq<T>, keys: seq<int>, links: seq<Link>, out: int) returns (at: seq<nat>)
    requires |all| == |keys|
    ensures LinkedPositions(keys, links, out, at) && Picked(all, keys, links, out) == At(all, at)
  {
    at := [];
    if keys != [] {
      var last := |keys| - 1;
      at := PickedAt(all[..last], keys[..last], links, out);
      LinkedPositionsGrow(keys, links, out, at, last);
      assert keys[..last + 1] == keys;
      AtWithin(all, last, at);
      AtOneMore(all, at, last);
      if Link(out, keys[last]) in links {
        at := at + [last];
      }
    }
  }

  lemma {:induction false} AtAligned(state: State, es: seq<Entity>, columns: seq<Column>, records: seq<Record>,
                                     at: seq<nat>, unmarshal: Unmarshal)
    requires AllDecodedAs(state, es, columns, records, unmarshal) && forall i :: 0 <= i < |at| ==> at[i] < |es|
    ensures AllDecodedAs(state, At(es, at), columns, At(records, at), unmarshal)
  {}

  // The rows of the neighbours, in terms of the stream: position j of the neighbours is the j-th first row.
  lemma SourcesAreFirsts(rows: seq<JoinRow>)
    ensures var firsts := Sources(Links(rows));
      && (forall i, j :: 0 <= i < j < |firsts| ==> firsts[i] < firsts[j] < |rows|)
      && (forall i :: 0 <= i < |firsts| ==>
        firsts[i] < |rows| && FirstOfItsId(rows, firsts[i])
        && Int64Of(rows[firsts[i]].record(ID)) == FirstIds(Links(rows))[i])
      && forall i :: 0 <= i < |rows| && FirstOfItsId(rows, i) ==> i in firsts
  {
    var links, firsts := Links(rows), Sources(Links(rows));
    FirstIdsExact(links);
    forall i | 0 <= i < |firsts|
      ensures firsts[i] < |rows| && FirstOfItsId(rows, firsts[i])
      ensures Int64Of(rows[firsts[i]].record(ID)) == FirstIds(links)[i]
    {
      assert FirstIds(links)[i] in FirstIds(links);
      FirstAtMeans(links, FirstIds(links)[i]);
      forall j | 0 <= j < firsts[i] ensures Int64Of(rows[j].record(ID)) != Int64Of(rows[firsts[i]].record(ID)) {
        assert links[j].id != FirstIds(links)[i];
      }
    }
    forall i | 0 <= i < |rows| && FirstOfItsId(rows, i) ensures i in firsts {
      var id := Int64Of(rows[i].record(ID));
      assert links[i].id == id && links[i] in links;
      assert Appears(links, id);
      FirstAtMeans(links, id);
      var j :| 0 <= j < |FirstIds(links)| && FirstIds(links)[j] == id;
      assert firsts[j] == i;
    }
  }

  // A link among the links of the rows is a row that links.
  lemma LinkIsRow(rows: seq<JoinRow>, out: int, i: nat)
    requires i < |rows|
    ensures Link(out, Int64Of(rows[i].record(ID))) in Links(rows) <==> LinkedTo(rows, out, i)
  {
    var links, l := Links(rows), Link(out, Int64Of(rows[i].record(ID)));
    if l in links {
      var j :| 0 <= j < |links| && links[j] == l;
      assert Int64Of(rows[j].out) == out;
    }
    if LinkedTo(rows, out, i) {
      var j :| 0 <= j < |rows| && Int64Of(rows[j].out) == out
        && Int64Of(rows[j].record(ID)) == Int64Of(rows[i].record(ID));
      assert links[j] == l;
    }
  }

  // The rows picked stand in row order, and are those of the neighbours picked.
  lemma PicksAscend(rows: seq<JoinRow>, firsts: seq<nat>, picks: seq<nat>, out: int, at: seq<nat>)
    requires firsts == Sources(Links(rows)) && LinkedPositions(FirstIds(Links(rows)), Links(rows), out, picks)
    requires at == At(firsts, picks)
    ensures forall i :: 0 <= i < |at| ==> at[i] < |rows|
    ensures forall i, j :: 0 <= i < j < |at| ==> at[i] < at[j]
    ensures At(FirstRecords(rows), picks) == At(JoinRecords(rows), at)
  {
    SourcesAreFirsts(rows);
    forall i | 0 <= i < |at| ensures at[i] < |rows| {
      assert at[i] == firsts[picks[i]];
    }
  }

  // The rows picked for a node that no later node takes after.
  lemma PicksStand(rows: seq<JoinRow>, ids: seq<int>, k: nat, picks: seq<nat>, at: seq<nat>)
    requires k < |ids| && IsLast(ids, k)
    requires LinkedPositions(FirstIds(Links(rows)), Links(rows), ids[k], picks)
    requires at == At(Sources(Links(rows)), picks)
    ensures forall i :: 0 <= i < |at| ==> at[i] < |rows|
    ensures JoinedAt(rows, ids, k, at) && At(FirstRecords(rows), picks) == At(JoinRecords(rows), at)
  {
    PicksAscend(rows, Sources(Links(rows)), picks, ids[k], at);
    forall i ensures i in at <==> 0 <= i < |rows| && FirstOfItsId(rows, i) && LinkedTo(rows, ids[k], i) {
      PicksAre(rows, Sources(Links(rows)), picks, ids[k], i);
    }
  }

  // Share gives node k the rows JoinedAt names.
  lemma ShareStands(rows: seq<JoinRow>, ids: seq<int>, k: nat, es: seq<Entity>) returns (picks: seq<nat>, at: seq<nat>)
    requires k < |ids| && |es| == |FirstIds(Links(rows))|
    ensures JoinedAt(rows, ids, k, at) && forall i :: 0 <= i < |at| ==> at[i] < |rows|
    ensures forall i :: 0 <= i < |picks| ==> picks[i] < |es|
    ensures Share(es, Links(rows), ids, k) == At(es, picks)
    ensures At(FirstRecords(rows), picks) == At(JoinRecords(rows), at)
  {
    picks, at := [], [];
    if IsLast(ids, k) {
      picks := PickedAt(es, FirstIds(Links(rows)), Links(rows), ids[k]);
      at := At(Sources(Links(rows)), picks);
      PicksStand(rows, ids, k, picks, at);
    }
  }

  lemma PicksAre(rows: seq<JoinRow>, firsts: seq<nat>, picks: seq<nat>, out: int, i: int)
    requires firsts == Sources(Links(rows)) && forall j :: 0 <= j < |picks| ==> picks[j] < |firsts|
    requires forall j :: j in picks <==>
      0 <= j < |firsts| && Link(out, FirstIds(Links(rows))[j]) in Links(rows)
    ensures i in At(firsts, picks) <==> 0 <= i < |rows| && FirstOfItsId(rows, i) && LinkedTo(rows, out, i)
  {
    SourcesAreFirsts(rows);
    var at := At(firsts, picks);
    if i in at {
      var p :| 0 <= p < |at| && at[p] == i;
      assert picks[p] in picks;
      LinkIsRow(rows, out, i);
    }
    if 0 <= i < |rows| && FirstOfItsId(rows, i) && LinkedTo(rows, out, i) {
      var j :| 0 <= j < |firsts| && firsts[j] == i;
      LinkIsRow(rows, out, i);
      assert j in picks;
      var p :| 0 <= p < |picks| && picks[p] == j;
      assert at[p] == i;
    }
  }

  // ChildrenOf takes the rows that name the ID.
  lemma {:induction false} ChildrenStand<T>(all: seq<T>, records: seq<Record>, n: nat, id: int) returns (at: seq<nat>)
    requires n <= |records| == |all|
    ensures forall i :: 0 <= i < |at| ==> at[i] < n
    ensures ChildrenOf(all, RecordKeys(records, ParentAccountID), n, id) == At(all, at)
    ensures forall i, j :: 0 <= i < j < |at| ==> at[i] < at[j]
    ensures forall i :: i in at <==> 0 <= i < n && records[i](ParentAccountID) == NullInt64(Some(id))
  {
    at := [];
    if n != 0 {
      at := ChildrenStand(all, records, n - 1, id);
      if RecordKeys(records, ParentAccountID)[n - 1] == Some(id) {
        at := at + [n - 1];
      }
    }
  }

  lemma ChildListStands<T>(all: seq<T>, records: seq<Record>, ids: seq<int>, k: nat) returns (at: seq<nat>)
    requires k < |ids| && |records| == |all|
    ensures ChildrenAt(records, ids, k, at) && forall i :: 0 <= i < |at| ==> at[i] < |records|
    ensures ChildList(records, all, ids, k) == At(all, at)
  {
    at := [];
    if IsLast(ids, k) {
      at := ChildrenStand(all, records, |records|, ids[k]);
    }
  }

  // KeyEntity takes the row SingleAt names.
  lemma KeyEntityStands(records: seq<Record>, es: seq<Entity>, key: Buffer, fk: Option<int>) returns (at: Option<nat>)
    requires |es| == |records| && fk == match key { case NullInt64(v) => v case _ => None }
    ensures SingleAt(records, key, at) && (at.Some? ==> at.value < |es|)
    ensures KeyEntity(records, es, fk) == if at.Some? then Some(es[at.value]) else None
  {
    at := None;
    if fk.Some? {
      var ids := RecordIds(records);
      LastAtIsLast(ids, |ids|, fk.value);
      assert forall i {:trigger records[i]} :: 0 <= i < |records| ==> ids[i] == Int64Of(records[i](ID));
      if LastAt(ids, |ids|, fk.value) >= 0 {
        at := Some(LastAt(ids, |ids|, fk.value));
      }
    }
  }
  // ---- When a run succeeds ----

  // The IDs and keys the queries of the edges bind.
  ghost predicate Bound(level: Level, db: Database, ids: seq<int>, proxyKeys: seq<int>, parentKeys: seq<int>) {
    var own := db.rows(level.path, level.bound);
    AreIds(ids, own) && AreKeys(proxyKeys, own, ProxyID) && AreKeys(parentKeys, own, ParentAccountID)
  }

  // The nested queries.
  function ParentQuery(p: Plan, path: seq<Edge>, keys: seq<int>): Level {
    Level(p.fields, p, path + [ParentEdge], keys)
  }

  function ChildrenQuery(p: Plan, path: seq<Edge>, ids: seq<int>): Level {
    Level(if p.fields == [] || ParentAccountID in p.fields then p.fields else p.fields + [ParentAccountID],
          p, path + [ChildrenEdge], ids)
  }

  // Every row of the stream that is the first of its ID can be decoded.
  ghost predicate FirstsDecodable(selection: Option<seq<Column>>, rows: seq<JoinRow>, unmarshal: Unmarshal) {
    selection.Some? ==> forall i :: 0 <= i < |rows| && FirstOfItsId(rows, i) ==>
      Decodable(selection.value, rows[i].record, unmarshal)
  }

  lemma FirstsAreSources(selection: Option<seq<Column>>, rows: seq<JoinRow>, unmarshal: Unmarshal)
    ensures JoinReadable(selection, rows, unmarshal) <==> FirstsDecodable(selection, rows, unmarshal)
  {
    SourcesAreFirsts(rows);
    if selection.Some? && JoinReadable(selection, rows, unmarshal) {
      forall i | 0 <= i < |rows| && FirstOfItsId(rows, i)
        ensures Decodable(selection.value, rows[i].record, unmarshal)
      {
        var j :| 0 <= j < |Sources(Links(rows))| && Sources(Links(rows))[j] == i;
      }
    }
  }

  // What can be decoded, edge by edge.
  ghost predicate EdgeDecodable(level: Level, e: Edge, db: Database, unmarshal: Unmarshal, ids: seq<int>,
                                proxyKeys: seq<int>, parentKeys: seq<int>)
  {
    var plan, path := level.plan, level.path;
    match e
    case GroupsEdge => FirstsDecodable(plan.groups, db.joins(path + [GroupsEdge], ids), unmarshal)
    case ProxiesEdge => FirstsDecodable(plan.proxies, db.joins(path + [ProxiesEdge], ids), unmarshal)
    case ProxyEdge =>
      plan.proxy.Some? && proxyKeys != [] ==> forall r :: r in db.rows(path + [ProxyEdge], proxyKeys) ==>
        Decodable(plan.proxy.value, r, unmarshal)
    case ParentEdge =>
      plan.parent.Some? && parentKeys != [] ==>
        Readable(ParentQuery(plan.parent.value, path, parentKeys), db, unmarshal)
    case ChildrenEdge =>
      plan.children.Some? ==> Readable(ChildrenQuery(plan.children.value, path, ids), db, unmarshal)
  }

  lemma AllDecodableMeans(columns: seq<Column>, records: seq<Record>, unmarshal: Unmarshal)
    ensures AllDecodable(columns, records, unmarshal) <==>
      forall r :: r in records ==> Decodable(columns, r, unmarshal)
  {
    assert forall i :: 0 <= i < |records| ==> records[i] in records;
  }

  lemma EdgeReadableMeans(level: Level, e: Edge, db: Database, unmarshal: Unmarshal, ids: seq<int>,
                          proxyKeys: seq<int>, parentKeys: seq<int>)
    requires Bound(level, db, ids, proxyKeys, parentKeys)
    ensures EdgeReadable(level, e, db, unmarshal) <==>
      EdgeDecodable(level, e, db, unmarshal, ids, proxyKeys, parentKeys)
  {
    var own := db.rows(level.path, level.bound);
    IdsAre(own, ids);
    match e {
      case GroupsEdge => FirstsAreSources(level.plan.groups, db.joins(level.path + [GroupsEdge], ids), unmarshal);
      case ProxiesEdge => FirstsAreSources(level.plan.proxies, db.joins(level.path + [ProxiesEdge], ids), unmarshal);
      case ProxyEdge =>
        KeysAre(own, ProxyID, proxyKeys);
        if level.plan.proxy.Some? {
          AllDecodableMeans(level.plan.proxy.value, db.rows(level.path + [ProxyEdge], proxyKeys), unmarshal);
        }
      case ParentEdge => KeysAre(own, ParentAccountID, parentKeys);
      case ChildrenEdge =>
    }
  }

  // A run can be decoded exactly if its own rows can, and, if there are any, those of every edge.
  lemma ReadableMeans(level: Level, db: Database, unmarshal: Unmarshal, ids: seq<int>, proxyKeys: seq<int>,
                      parentKeys: seq<int>)
    requires Bound(level, db, ids, proxyKeys, parentKeys)
    ensures var own := db.rows(level.path, level.bound);
      Readable(level, db, unmarshal) <==>
      && (forall r :: r in own ==>
        Decodable(ColumnList(level.fields, level.plan.proxy.Some?, level.plan.parent.Some?), r, unmarshal))
      && (own != [] ==> forall e :: EdgeDecodable(level, e, db, unmarshal, ids, proxyKeys, parentKeys))
  {
    AllDecodableMeans(level.Columns(), level.Records(db), unmarshal);
    forall e: Edge
      ensures e in ALL_EDGES
      ensures EdgeReadable(level, e, db, unmarshal) <==>
        EdgeDecodable(level, e, db, unmarshal, ids, proxyKeys, parentKeys)
    {
      EdgeReadableMeans(level, e, db, unmarshal, ids, proxyKeys, parentKeys);
      AllEdges(e);
    }
  }

  lemma AllEdges(e: Edge)
    ensures e in ALL_EDGES
  {
    match e
    case GroupsEdge =>
    case ProxyEdge =>
    case ProxiesEdge =>
    case ParentEdge =>
    case ChildrenEdge =>
  }

  lemma OwnersAre(rows: seq<JoinRow>, ids: seq<int>)
    ensures OwnersKnown(rows, ids) <==> forall i :: 0 <= i < |rows| ==> Int64Of(rows[i].out) in ids
  {
    var links := Links(rows);
    if OwnersKnown(rows, ids) {
      forall i | 0 <= i < |rows| ensures Int64Of(rows[i].out) in ids {
        assert links[i] in links;
      }
    }
  }

  lemma KnownAre(records: seq<Record>, ids: seq<int>)
    ensures AllKnown(RecordKeys(records, ParentAccountID), |records|, set id | id in ids) <==>
      forall i :: 0 <= i < |records| ==> exists id :: id in ids && records[i](ParentAccountID) == NullInt64(Some(id))
  {
    var fks, known := RecordKeys(records, ParentAccountID), set id | id in ids;
    AllKnownMeans(fks, |records|, known);
    forall i | 0 <= i < |records|
      ensures (fks[i].Some? && fks[i].value in known) <==>
        exists id :: id in ids && records[i](ParentAccountID) == NullInt64(Some(id))
    {
      assert fks[i] == RecordKey(records[i], ParentAccountID);
      if fks[i].Some? && fks[i].value in known {
        var v := fks[i].value;
        assert v in ids && records[i](ParentAccountID) == NullInt64(Some(v));
      }
      if id :| id in ids && records[i](ParentAccountID) == NullInt64(Some(id)) {
        assert fks[i] == Some(id) && id in known;
      }
    }
  }

  lemma OnlyAskedMeans(records: seq<Record>, asked: seq<int>)
    ensures OnlyAsked(records, asked) <==> forall i :: 0 <= i < |records| ==> Int64Of(records[i](ID)) in asked
  {
    assert forall i {:trigger records[i]} :: 0 <= i < |records| ==> RecordIds(records)[i] == Int64Of(records[i](ID));
  }

  // What respects the query, edge by edge: no row belongs to a node that was not asked for.
  ghost predicate EdgeFits(level: Level, e: Edge, db: Database, ids: seq<int>, proxyKeys: seq<int>,
                           parentKeys: seq<int>)
  {
    var plan, path := level.plan, level.path;
    match e
    case GroupsEdge =>
      var rows := db.joins(path + [GroupsEdge], ids);
      plan.groups.Some? ==> forall i :: 0 <= i < |rows| ==> Int64Of(rows[i].out) in ids
    case ProxiesEdge =>
      var rows := db.joins(path + [ProxiesEdge], ids);
      plan.proxies.Some? ==> forall i :: 0 <= i < |rows| ==> Int64Of(rows[i].out) in ids
    case ProxyEdge =>
      var rows := db.rows(path + [ProxyEdge], proxyKeys);
      plan.proxy.Some? && proxyKeys != [] ==> forall i :: 0 <= i < |rows| ==> Int64Of(rows[i](ID)) in proxyKeys
    case ParentEdge =>
      var rows := db.rows(path + [ParentEdge], parentKeys);
      plan.parent.Some? && parentKeys != [] ==>
        && Honest(ParentQuery(plan.parent.value, path, parentKeys), db)
        && forall i :: 0 <= i < |rows| ==> Int64Of(rows[i](ID)) in parentKeys
    case ChildrenEdge =>
      var rows := db.rows(path + [ChildrenEdge], ids);
      plan.children.Some? ==>
        && Honest(ChildrenQuery(plan.children.value, path, ids), db)
        && forall i :: 0 <= i < |rows| ==> exists id :: id in ids && rows[i](ParentAccountID) == NullInt64(Some(id))
  }

  lemma EdgeHonestMeans(level: Level, e: Edge, db: Database, ids: seq<int>, proxyKeys: seq<int>, parentKeys: seq<int>)
    requires Bound(level, db, ids, proxyKeys, parentKeys)
    ensures EdgeHonest(level, e, db) <==> EdgeFits(level, e, db, ids, proxyKeys, parentKeys)
  {
    var own := db.rows(level.path, level.bound);
    IdsAre(own, ids);
    match e {
      case GroupsEdge => OwnersAre(db.joins(level.path + [GroupsEdge], ids), ids);
      case ProxiesEdge => OwnersAre(db.joins(level.path + [ProxiesEdge], ids), ids);
      case ProxyEdge =>
        KeysAre(own, ProxyID, proxyKeys);
        OnlyAskedMeans(db.rows(level.path + [ProxyEdge], proxyKeys), proxyKeys);
      case ParentEdge =>
        KeysAre(own, ParentAccountID, parentKeys);
        OnlyAskedMeans(db.rows(level.path + [ParentEdge], parentKeys), parentKeys);
      case ChildrenEdge => KnownAre(db.rows(level.path + [ChildrenEdge], ids), ids);
    }
  }

  lemma HonestMeans(level: Level, db: Database, ids: seq<int>, proxyKeys: seq<int>, parentKeys: seq<int>)
    requires Bound(level, db, ids, proxyKeys, parentKeys)
    ensures Honest(level, db) <==>
      (db.rows(level.path, level.bound) != [] ==>
        forall e :: EdgeFits(level, e, db, ids, proxyKeys, parentKeys))
  {
    forall e: Edge
      ensures e in ALL_EDGES
      ensures EdgeHonest(level, e, db) <==> EdgeFits(level, e, db, ids, proxyKeys, parentKeys)
    {
      EdgeHonestMeans(level, e, db, ids, proxyKeys, parentKeys);
      AllEdges(e);
    }
  }
}
