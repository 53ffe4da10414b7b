/**
 What one run of an account query loads, with the queries of its edges nested to any depth: the specification of sqlAll
 in backend/ent/account_query.go (lines 621-712).
 */
module QuerySpec {
  import opened Wrappers
  import opened Accounts
  import opened JoinSpec
  import opened EagerLoading
  import opened ColumnSelection

  // What a query asks for: its selection, and for each requested edge the edge's query. Queries of groups and proxies
  // are known by the columns they select; those of the two edges within the accounts table have edges of their own.
  datatype Plan = Plan(fields: seq<Column>, groups: Option<seq<Column>>, proxy: Option<seq<Column>>,
                       proxies: Option<seq<Column>>, parent: Option<Plan>, children: Option<Plan>)
  {
    // Group and proxy queries build their column list as querySpec does: ID first.
    predicate Valid() {
      && (groups.Some? ==> StartsWithId(groups.value))
      && (proxy.Some? ==> StartsWithId(proxy.value))
      && (proxies.Some? ==> StartsWithId(proxies.value))
      && (parent.Some? ==> parent.value.Valid())
      && (children.Some? ==> children.value.Valid())
    }

    // loadedTypes.
    function Edges(): set<Edge> {
      set e: Edge | e in ALL_EDGES && Requests(e)
    }

    predicate Requests(e: Edge) {
      match e
      case GroupsEdge => groups.Some?
      case ProxyEdge => proxy.Some?
      case ProxiesEdge => proxies.Some?
      case ParentEdge => parent.Some?
      case ChildrenEdge => children.Some?
    }
  }

  const ALL_EDGES: set<Edge> := {GroupsEdge, ProxyEdge, ProxiesEdge, ParentEdge, ChildrenEdge}

  predicate StartsWithId(columns: seq<Column>) { |columns| > 0 && columns[0] == ID }

  // What the driver answers to the query at the end of a path of edges, given the IDs bound in its WHERE.
  datatype Database = Database(rows: (seq<Edge>, seq<int>) -> seq<Record>, joins: (seq<Edge>, seq<int>) -> seq<JoinRow>)
  {
    ghost predicate Valid() {
      && (forall path: seq<Edge>, ids: seq<int>, r :: r in rows(path, ids) ==> WellTyped(r))
      && forall path: seq<Edge>, ids: seq<int>, row :: row in joins(path, ids) ==> WellTyped(row.record)
    }
  }

  // A row's keys in a nullable int64 column.
  function RecordKeys(records: seq<Record>, column: Column): seq<Option<int>> {
    seq(|records|, i requires 0 <= i < |records| => RecordKey(records[i], column))
  }

  // One query of the tree: its plan, with the selection it runs with, its path, and the IDs bound in its WHERE.
  datatype Level = Level(fields: seq<Column>, plan: Plan, path: seq<Edge>, bound: seq<int>)
  {
    function Columns(): seq<Column> { ColumnList(fields, plan.proxy.Some?, plan.parent.Some?) }

    function Records(db: Database): seq<Record> { db.rows(path, bound) }

    function Ids(db: Database): seq<int> { RecordIds(Records(db)) }

    function Keys(db: Database, column: Column): seq<Option<int>> { RecordKeys(Records(db), column) }

    // The keys a to-one edge asks for.
    ghost function Asked(db: Database, column: Column): seq<int> { Wanted(Keys(db, column), |Records(db)|) }

    function Groups(db: Database): seq<JoinRow> { db.joins(path + [GroupsEdge], Ids(db)) }

    function Proxies(db: Database): seq<JoinRow> { db.joins(path + [ProxiesEdge], Ids(db)) }

    ghost function Proxy(db: Database): seq<Record> { db.rows(path + [ProxyEdge], Asked(db, ProxyID)) }

    // The nested query of the parent edge, and whether it is run at all.
    ghost function Parent(db: Database): Level
      requires plan.parent.Some?
    {
      Level(plan.parent.value.fields, plan.parent.value, path + [ParentEdge], Asked(db, ParentAccountID))
    }

    ghost predicate AsksProxy(db: Database) { plan.proxy.Some? && Asked(db, ProxyID) != [] }

    ghost predicate AsksParent(db: Database) { plan.parent.Some? && Asked(db, ParentAccountID) != [] }

    // The nested query of the children edge; loadChildren adds the key it reads to a selection.
    function Children(db: Database): Level
      requires plan.children.Some?
    {
      var fields := plan.children.value.fields;
      Level(if |fields| > 0 then AppendOnce(fields, ParentAccountID) else fields,
            plan.children.value, path + [ChildrenEdge], Ids(db))
    }
  }

  function Root(plan: Plan): Level { Level(plan.fields, plan, [], []) }

  // ---- When a run succeeds ----

  // Every document of every row the run reads can be decoded.
  ghost predicate Readable(level: Level, db: Database, unmarshal: Unmarshal)
    decreases level.plan, 1
  {
    && AllDecodable(level.Columns(), level.Records(db), unmarshal)
    && (level.Records(db) != [] ==> forall e :: e in ALL_EDGES ==> EdgeReadable(level, e, db, unmarshal))
  }

  ghost predicate JoinReadable(selection: Option<seq<Column>>, rows: seq<JoinRow>, unmarshal: Unmarshal) {
    selection.Some? ==> SourcesDecodable(selection.value, rows, Sources(Links(rows)), unmarshal)
  }

  ghost predicate EdgeReadable(level: Level, e: Edge, db: Database, unmarshal: Unmarshal)
    decreases level.plan, 0
  {
    match e
    case GroupsEdge => JoinReadable(level.plan.groups, level.Groups(db), unmarshal)
    case ProxyEdge => level.AsksProxy(db) ==> AllDecodable(level.plan.proxy.value, level.Proxy(db), unmarshal)
    case ProxiesEdge => JoinReadable(level.plan.proxies, level.Proxies(db), unmarshal)
    case ParentEdge => level.AsksParent(db) ==> Readable(level.Parent(db), db, unmarshal)
    case ChildrenEdge => level.plan.children.Some? ==> Readable(level.Children(db), db, unmarshal)
  }

  // The answers respect what was asked for: no row belongs to a node outside the query.
  ghost predicate Honest(level: Level, db: Database)
    decreases level.plan, 1
  {
    level.Records(db) != [] ==> forall e :: e in ALL_EDGES ==> EdgeHonest(level, e, db)
  }

  ghost predicate OnlyAsked(records: seq<Record>, asked: seq<int>) {
    forall j :: 0 <= j < |records| ==> RecordIds(records)[j] in asked
  }

  ghost predicate KnownChildren(level: Level, db: Database)
    requires level.plan.children.Some?
  {
    var records := level.Children(db).Records(db);
    AllKnown(RecordKeys(records, ParentAccountID), |records|, set id | id in level.Ids(db))
  }

  ghost predicate EdgeHonest(level: Level, e: Edge, db: Database)
    decreases level.plan, 0
  {
    match e
    case GroupsEdge => level.plan.groups.Some? ==> OwnersKnown(level.Groups(db), level.Ids(db))
    case ProxyEdge => level.AsksProxy(db) ==> OnlyAsked(level.Proxy(db), level.Asked(db, ProxyID))
    case ProxiesEdge => level.plan.proxies.Some? ==> OwnersKnown(level.Proxies(db), level.Ids(db))
    case ParentEdge =>
      level.AsksParent(db) ==>
        && Honest(level.Parent(db), db)
        && OnlyAsked(level.Parent(db).Records(db), level.Asked(db, ParentAccountID))
    case ChildrenEdge =>
      level.plan.children.Some? ==> Honest(level.Children(db), db) && KnownChildren(level, db)
  }

  // ---- What a successful run leaves ----

  // An entity's fields at one moment.
  datatype Content = Content(id: int, scalars: map<Column, Value>, documents: map<Column, Value>,
                             extras: map<string, Buffer>,
                             loadedTypes: set<Edge>, lists: map<Edge, seq<Entity>>, singles: map<Edge, Entity>)

  type State = map<Entity, Content>

  ghost function ContentOf(e: Entity): Content
    reads e
  {
    Content(e.id, e.scalars, e.documents, e.selectValues, e.loadedTypes, e.lists, e.singles)
  }

  // The heap holds what the state says.
  ghost predicate Current(state: State)
    reads state.Keys
  {
    forall e :: e in state.Keys ==> ContentOf(e) == state[e]
  }

  // EagerLoading.Decoded, on the content.
  ghost predicate DecodedAs(c: Content, columns: seq<Column>, record: Record, unmarshal: Unmarshal) {
    && c.id == RecordId(record)
    && (forall col :: IsScalar(col) ==> Field(c.scalars, col) == if col in columns then record(col).Scalar() else None)
    && (forall col :: IsDocument(col) ==> Field(c.documents, col) == DocumentOf(columns, record, col, unmarshal))
    && forall name :: Field(c.extras, name) == ExtraOf(columns, record, name)
  }

  ghost predicate AllDecodedAs(state: State, es: seq<Entity>, columns: seq<Column>, records: seq<Record>,
                               unmarshal: Unmarshal)
  {
    && |es| == |records|
    && forall j :: 0 <= j < |es| ==> es[j] in state && DecodedAs(state[es[j]], columns, records[j], unmarshal)
  }

  // The entities of a run: its nodes, the neighbours of its edges, and the runs of the nested queries; with the
  // contents of its own entities, and the contents of everything in it.
  datatype Run = Run(nodes: seq<Entity>, groups: seq<Entity>, proxy: seq<Entity>, proxies: seq<Entity>, state: State,
                     parent: Option<Run>, children: Option<Run>, whole: State)
  {
    // No entity belongs to two queries of the tree.
    ghost predicate Separate() {
      && state.Keys !! NestedState(parent).Keys && state.Keys !! NestedState(children).Keys
      && NestedState(parent).Keys !! NestedState(children).Keys
      && whole == NestedState(parent) + NestedState(children) + state
    }

    // Nor to two edges of one, nor is it both a node and a neighbour in another table.
    ghost predicate Apart() {
      && (forall e :: e in nodes ==> e !in groups && e !in proxy && e !in proxies)
      && (forall e :: e in groups ==> e !in proxy && e !in proxies)
      && forall e :: e in proxy ==> e !in proxies
    }
  }

  ghost function NestedState(run: Option<Run>): State { if run.Some? then run.value.whole else map[] }

  const NOTHING := Run([], [], [], [], map[], None, None, map[])

  // The edges of node k, in terms of the neighbours.
  ghost function JoinList(selection: Option<seq<Column>>, rows: seq<JoinRow>, neighbors: seq<Entity>, ids: seq<int>,
                          k: nat)
    : Option<seq<Entity>>
    requires k < |ids| && (selection.Some? ==> |neighbors| == |FirstIds(Links(rows))|)
  {
    if selection.Some? then Some(Share(neighbors, Links(rows), ids, k)) else None
  }

  // The neighbour the key names, among those decoded from these rows.
  ghost function KeyEntity(records: seq<Record>, neighbors: seq<Entity>, key: Option<int>): Option<Entity> {
    if |neighbors| == |records| then Referenced(neighbors, RecordIds(records), |records|, key) else None
  }

  ghost function ChildList<T>(records: seq<Record>, neighbors: seq<T>, ids: seq<int>, k: nat): seq<T>
    requires k < |ids| && |neighbors| == |records|
  {
    OwnedChildren(neighbors, RecordKeys(records, ParentAccountID), |records|, Owned(ids)[k])
  }

  // The rows the neighbours of a join edge are decoded from: the row each ID came first in.
  ghost function FirstRecords(rows: seq<JoinRow>): seq<Record> {
    FirstIdsExact(Links(rows));
    seq(|FirstIds(Links(rows))|, j requires 0 <= j < |FirstIds(Links(rows))| => rows[Sources(Links(rows))[j]].record)
  }

  ghost predicate JoinBuilt(state: State, selection: Option<seq<Column>>, rows: seq<JoinRow>, neighbors: seq<Entity>,
                            unmarshal: Unmarshal)
  {
    && Distinct(neighbors)
    && if selection.Some? then AllDecodedAs(state, neighbors, selection.value, FirstRecords(rows), unmarshal)
       else neighbors == []
  }

  ghost predicate ProxyBuilt(state: State, level: Level, db: Database, neighbors: seq<Entity>, unmarshal: Unmarshal) {
    && Distinct(neighbors)
    && if level.AsksProxy(db) then AllDecodedAs(state, neighbors, level.plan.proxy.value, level.Proxy(db), unmarshal)
       else neighbors == []
  }

  // One node for each row, the lengths fit, and nested queries were run exactly where they are asked for.
  ghost predicate Shaped(run: Run, level: Level, db: Database) {
    && |run.nodes| == |level.Records(db)| > 0 && Distinct(run.nodes)
    && (level.plan.groups.Some? ==> |run.groups| == |FirstIds(Links(level.Groups(db)))|)
    && (level.plan.proxies.Some? ==> |run.proxies| == |FirstIds(Links(level.Proxies(db)))|)
    && (run.parent.Some? <==> level.AsksParent(db))
    && (run.children.Some? <==> level.plan.children.Some?)
    && (run.children.Some? ==> |run.children.value.nodes| == |level.Children(db).Records(db)|)
  }

  // The lists of node k from the joins.
  ghost function JoinLists(groups: seq<Entity>, proxies: seq<Entity>, level: Level, db: Database, k: nat)
    : map<Edge, seq<Entity>>
    requires k < |level.Records(db)|
    requires level.plan.groups.Some? ==> |groups| == |FirstIds(Links(level.Groups(db)))|
    requires level.plan.proxies.Some? ==> |proxies| == |FirstIds(Links(level.Proxies(db)))|
  {
    With(With(map[], GroupsEdge, JoinList(level.plan.groups, level.Groups(db), groups, level.Ids(db), k)),
         ProxiesEdge, JoinList(level.plan.proxies, level.Proxies(db), proxies, level.Ids(db), k))
  }

  // Every edge of node k that was requested is set to what the rows say, and no other.
  ghost function ListsOf(run: Run, level: Level, db: Database, k: nat): map<Edge, seq<Entity>>
    requires Shaped(run, level, db) && k < |run.nodes|
  {
    var joins := JoinLists(run.groups, run.proxies, level, db, k);
    if run.children.Some?
    then joins[ChildrenEdge := ChildList(level.Children(db).Records(db), run.children.value.nodes, level.Ids(db), k)]
    else joins
  }

  ghost function ProxyOf(level: Level, db: Database, neighbors: seq<Entity>, k: nat): Option<Entity>
    requires k < |level.Records(db)|
  {
    if level.AsksProxy(db) then KeyEntity(level.Proxy(db), neighbors, level.Keys(db, ProxyID)[k]) else None
  }

  ghost function ParentOf(level: Level, db: Database, run: Option<Run>, k: nat): Option<Entity>
    requires k < |level.Records(db)| && (run.Some? ==> level.plan.parent.Some?)
  {
    if run.Some? then KeyEntity(level.Parent(db).Records(db), run.value.nodes, level.Keys(db, ParentAccountID)[k])
    else None
  }

  ghost function SinglesOf(run: Run, level: Level, db: Database, k: nat): map<Edge, Entity>
    requires Shaped(run, level, db) && k < |run.nodes|
  {
    With(With(map[], ProxyEdge, ProxyOf(level, db, run.proxy, k)), ParentEdge, ParentOf(level, db, run.parent, k))
  }

  // The nodes' own content, and every edge of theirs.
  ghost predicate NodesBuilt(run: Run, level: Level, db: Database, unmarshal: Unmarshal)
    requires Shaped(run, level, db)
  {
    && AllDecodedAs(run.state, run.nodes, level.Columns(), level.Records(db), unmarshal)
    && forall k :: 0 <= k < |run.nodes| ==>
      && run.state[run.nodes[k]].loadedTypes == level.plan.Edges()
      && run.state[run.nodes[k]].lists == ListsOf(run, level, db, k)
      && run.state[run.nodes[k]].singles == SinglesOf(run, level, db, k)
  }

  /**
   The run holds exactly what its rows say, at every depth: nodes and neighbours are decoded from their rows, every
   requested edge of every node is the plain join of the rows, and edges that were not requested are nil.
   */
  ghost predicate RunLoaded(run: Run, level: Level, db: Database, unmarshal: Unmarshal)
    decreases level.plan
  {
    if level.Records(db) == [] then run == NOTHING
    else
      && Shaped(run, level, db) && run.Separate() && run.Apart()
      && NodesBuilt(run, level, db, unmarshal)
      && JoinBuilt(run.state, level.plan.groups, level.Groups(db), run.groups, unmarshal)
      && ProxyBuilt(run.state, level, db, run.proxy, unmarshal)
      && JoinBuilt(run.state, level.plan.proxies, level.Proxies(db), run.proxies, unmarshal)
      && (run.parent.Some? ==> RunLoaded(run.parent.value, level.Parent(db), db, unmarshal))
      && (run.children.Some? ==> RunLoaded(run.children.value, level.Children(db), db, unmarshal))
  }

  // What a loaded run with rows says of its own entities.
  lemma LoadedOwn(run: Run, level: Level, db: Database, unmarshal: Unmarshal)
    requires RunLoaded(run, level, db, unmarshal) && level.Records(db) != []
    ensures Shaped(run, level, db) && run.Separate() && NodesBuilt(run, level, db, unmarshal)
    ensures JoinBuilt(run.state, level.plan.groups, level.Groups(db), run.groups, unmarshal)
    ensures ProxyBuilt(run.state, level, db, run.proxy, unmarshal)
    ensures JoinBuilt(run.state, level.plan.proxies, level.Proxies(db), run.proxies, unmarshal)
  {}

  lemma NodeCount(run: Run, level: Level, db: Database, unmarshal: Unmarshal)
    requires RunLoaded(run, level, db, unmarshal)
    ensures |run.nodes| == |level.Records(db)|
  {}
}
