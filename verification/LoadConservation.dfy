/**
 Conservation (backend/ent/account_query.go, lines 714-774 and 900-932): the lists of a run account for every distinct
 row of a join, and for every returned child, once.
 */
module LoadConservation {
  import opened Wrappers
  import opened Accounts
  import opened JoinSpec
  import opened EagerLoading
  import opened QuerySpec
  import opened RowSources

  // The lists of the first n parents, together.
  ghost function LoadedLength(links: seq<Link>, ids: seq<int>, n: nat): nat
    requires n <= |ids|
  {
    if n == 0 then 0 else LoadedLength(links, ids, n - 1) + |ExpectedIds(links, ids, n - 1)|
  }

  // The distinct links whose parent ID was last seen among the first n positions.
  ghost function LinksTo(links: seq<Link>, ids: seq<int>, n: nat): set<Link> {
    set l | l in links && 0 <= LastAt(ids, |ids|, l.out) < n
  }

  lemma LinksToStep(links: seq<Link>, ids: seq<int>, n: nat)
    requires n < |ids|
    ensures |LinksTo(links, ids, n + 1)| == |LinksTo(links, ids, n)| + |ExpectedIds(links, ids, n)|
  {
    var out, join := ids[n], ExpectedIds(links, ids, n);
    forall l | l in links ensures LastAt(ids, |ids|, l.out) == n <==> IsLast(ids, n) && l.out == out {
      LastAtIsLast(ids, |ids|, l.out);
    }
    if IsLast(ids, n) {
      NaiveJoinExact(links, out);
      DistinctLength(join, out);
      var own := set id | id in join :: Link(out, id);
      forall l | l in links && l.out == out ensures l in own {
        assert l == Link(out, l.id);
      }
      assert LinksTo(links, ids, n + 1) == LinksTo(links, ids, n) + own;
    } else {
      assert LinksTo(links, ids, n + 1) == LinksTo(links, ids, n);
    }
  }

  lemma {:induction false} LoadedLengthCounts(links: seq<Link>, ids: seq<int>, n: nat)
    requires n <= |ids|
    ensures LoadedLength(links, ids, n) == |LinksTo(links, ids, n)|
  {
    if n == 0 {
      assert LinksTo(links, ids, 0) == {};
    } else {
      LoadedLengthCounts(links, ids, n - 1);
      LinksToStep(links, ids, n - 1);
    }
  }

  // Conservation: when every row names a parent, the lists of all parents hold exactly as many neighbours as there are
  // distinct (parent, neighbour) pairs in the stream, even if several parents share an ID.
  lemma LoadConservesLinks(links: seq<Link>, ids: seq<int>)
    requires forall l :: l in links ==> l.out in ids
    ensures LoadedLength(links, ids, |ids|) == |LinkSet(links)|
  {
    LoadedLengthCounts(links, ids, |ids|);
    forall l | l in links ensures LastAt(ids, |ids|, l.out) >= 0 {
      LastAtIsLast(ids, |ids|, l.out);
    }
    assert LinksTo(links, ids, |ids|) == LinkSet(links);
  }

  // ---- On the lists of a run ----

  function ListIn(state: State, node: Entity, e: Edge): seq<Entity> {
    if node in state && e in state[node].lists then state[node].lists[e] else []
  }

  // One edge's lists of all nodes.
  ghost function ListsAt(run: Run, e: Edge): seq<seq<Entity>> {
    seq(|run.nodes|, k requires 0 <= k < |run.nodes| => ListIn(run.state, run.nodes[k], e))
  }

  // Everything in the first n lists.
  ghost function Together(lists: seq<seq<Entity>>, n: nat): multiset<Entity>
    requires n <= |lists|
  {
    if n == 0 then multiset{} else Together(lists, n - 1) + multiset(lists[n - 1])
  }

  ghost function HandedOut(run: Run, e: Edge): multiset<Entity> { Together(ListsAt(run, e), |run.nodes|) }

  lemma {:induction false} PickedLength<T>(neighbors: seq<T>, keys: seq<int>, links: seq<Link>, out: int)
    requires |neighbors| == |keys|
    ensures |Picked(neighbors, keys, links, out)| == |LinkedAmong(keys, links, out)|
  {
    if keys != [] {
      PickedLength(neighbors[..|keys| - 1], keys[..|keys| - 1], links, out);
    }
  }

  // The rows of a join edge.
  function JoinOf(level: Level, e: Edge, db: Database): seq<JoinRow>
    requires e in {GroupsEdge, ProxiesEdge}
  {
    if e == GroupsEdge then level.Groups(db) else level.Proxies(db)
  }

  function NeighborsOf(run: Run, e: Edge): seq<Entity>
    requires e in {GroupsEdge, ProxiesEdge}
  {
    if e == GroupsEdge then run.groups else run.proxies
  }

  lemma JoinListAt(run: Run, level: Level, e: Edge, db: Database, unmarshal: Unmarshal, k: nat)
    requires RunLoaded(run, level, db, unmarshal) && k < |run.nodes|
    requires e in {GroupsEdge, ProxiesEdge} && level.plan.Requests(e)
    ensures |run.nodes| == |level.Ids(db)| && |NeighborsOf(run, e)| == |FirstIds(Links(JoinOf(level, e, db)))|
    ensures ListIn(run.state, run.nodes[k], e) ==
      Share(NeighborsOf(run, e), Links(JoinOf(level, e, db)), level.Ids(db), k)
  {
    var lists := ListsOf(run, level, db, k);
    assert run.state[run.nodes[k]].lists == lists;
    assert e in lists && lists[e] == Share(NeighborsOf(run, e), Links(JoinOf(level, e, db)), level.Ids(db), k);
  }

  lemma JoinListLength(run: Run, level: Level, e: Edge, db: Database, unmarshal: Unmarshal, k: nat)
    requires RunLoaded(run, level, db, unmarshal) && k < |run.nodes|
    requires e in {GroupsEdge, ProxiesEdge} && level.plan.Requests(e)
    ensures |run.nodes| == |level.Ids(db)|
    ensures |ListIn(run.state, run.nodes[k], e)| == |ExpectedIds(Links(JoinOf(level, e, db)), level.Ids(db), k)|
  {
    JoinListAt(run, level, e, db, unmarshal, k);
    ShareLength(NeighborsOf(run, e), Links(JoinOf(level, e, db)), level.Ids(db), k);
  }

  lemma ShareLength<T>(neighbors: seq<T>, links: seq<Link>, ids: seq<int>, k: nat)
    requires |neighbors| == |FirstIds(links)| && k < |ids|
    ensures |Share(neighbors, links, ids, k)| == |ExpectedIds(links, ids, k)|
  {
    PickedLength(neighbors, FirstIds(links), links, ids[k]);
  }

  lemma {:induction false} TogetherLength(lists: seq<seq<Entity>>, links: seq<Link>, ids: seq<int>, n: nat)
    requires n <= |lists| == |ids|
    requires forall k :: 0 <= k < |ids| ==> |lists[k]| == |ExpectedIds(links, ids, k)|
    ensures |Together(lists, n)| == LoadedLength(links, ids, n)
  {
    if n != 0 {
      TogetherLength(lists, links, ids, n - 1);
    }
  }

  lemma LinksAre(rows: seq<JoinRow>)
    ensures LinkSet(Links(rows)) == set row | row in rows :: Link(Int64Of(row.out), Int64Of(row.record(ID)))
  {
    var links, pairs := Links(rows), set row | row in rows :: Link(Int64Of(row.out), Int64Of(row.record(ID)));
    forall l | l in links ensures l in pairs {
      var i :| 0 <= i < |links| && links[i] == l;
      assert rows[i] in rows;
    }
    forall row | row in rows ensures Link(Int64Of(row.out), Int64Of(row.record(ID))) in links {
      var i :| 0 <= i < |rows| && rows[i] == row;
      assert links[i] == Link(Int64Of(row.out), Int64Of(row.record(ID)));
    }
  }

  // The groups (or proxies) of all nodes of a run are as many as the answer to the edge's own query has distinct
  // (node, neighbour) pairs.
  lemma RunConservesLinks(run: Run, level: Level, e: Edge, db: Database, unmarshal: Unmarshal, ids: seq<int>)
    requires RunLoaded(run, level, db, unmarshal) && Honest(level, db)
    requires AreIds(ids, db.rows(level.path, level.bound)) && ids != []
    requires e in {GroupsEdge, ProxiesEdge} && level.plan.Requests(e)
    ensures |HandedOut(run, e)| ==
      |set row | row in db.joins(level.path + [e], ids) :: Link(Int64Of(row.out), Int64Of(row.record(ID)))|
  {
    assert EdgeHonest(level, e, db) by { assert e in ALL_EDGES; }
    IdsAre(db.rows(level.path, level.bound), ids);
    var links := Links(JoinOf(level, e, db));
    forall k | 0 <= k < |ids| ensures |ListsAt(run, e)[k]| == |ExpectedIds(links, ids, k)| {
      JoinListLength(run, level, e, db, unmarshal, k);
    }
    TogetherLength(ListsAt(run, e), links, ids, |ids|);
    LoadConservesLinks(links, ids);
    LinksAre(JoinOf(level, e, db));
  }

  // What each node gets of the first n children.
  ghost function Shares(neighbors: seq<Entity>, fks: seq<Option<int>>, n: nat, owned: seq<Option<int>>)
    : seq<seq<Entity>>
    requires n <= |fks| == |neighbors|
  {
    seq(|owned|, k requires 0 <= k < |owned| => OwnedChildren(neighbors, fks, n, owned[k]))
  }

  // The next child goes to one of the first m nodes, or to none of them.
  lemma {:induction false} NextShare(before: seq<seq<Entity>>, after: seq<seq<Entity>>, m: nat, owner: nat,
                                     child: Entity)
    requires m <= |before| == |after|
    requires forall k :: 0 <= k < |before| ==> after[k] == if k == owner then before[k] + [child] else before[k]
    ensures Together(after, m) == Together(before, m) + if owner < m then multiset{child} else multiset{}
  {
    if m != 0 {
      NextShare(before, after, m - 1, owner, child);
    }
  }

  lemma {:induction false} NothingShared(lists: seq<seq<Entity>>, n: nat)
    requires n <= |lists| && forall k :: 0 <= k < |lists| ==> lists[k] == []
    ensures Together(lists, n) == multiset{}
  {
    if n != 0 {
      NothingShared(lists, n - 1);
    }
  }

  lemma {:induction false} SharedIsAll(neighbors: seq<Entity>, fks: seq<Option<int>>, n: nat, ids: seq<int>)
    requires n <= |fks| == |neighbors| && AllKnown(fks, n, set id | id in ids)
    ensures Together(Shares(neighbors, fks, n, Owned(ids)), |ids|) == multiset(neighbors[..n])
  {
    var after := Shares(neighbors, fks, n, Owned(ids));
    if n == 0 {
      NothingShared(after, |ids|);
    } else {
      var before := Shares(neighbors, fks, n - 1, Owned(ids));
      SharedIsAll(neighbors, fks, n - 1, ids);
      var owner := OwnerOf(fks[n - 1].value, ids);
      forall k | 0 <= k < |ids| ensures after[k] == if k == owner then before[k] + [neighbors[n - 1]] else before[k] {
        OwnedStep(neighbors, fks, n - 1, Owned(ids)[k]);
      }
      NextShare(before, after, |ids|, owner, neighbors[n - 1]);
      assert neighbors[..n] == neighbors[..n - 1] + [neighbors[n - 1]];
    }
  }

  // The one node that is owned under a known ID.
  lemma OwnerOf(id: int, ids: seq<int>) returns (owner: nat)
    requires id in ids
    ensures owner < |ids| && forall k :: 0 <= k < |ids| ==> (Owned(ids)[k] == Some(id) <==> k == owner)
  {
    LastAtIsLast(ids, |ids|, id);
    owner := LastAt(ids, |ids|, id);
  }

  lemma ChildListAt(run: Run, level: Level, db: Database, unmarshal: Unmarshal, k: nat)
    requires RunLoaded(run, level, db, unmarshal) && k < |run.nodes| && level.plan.children.Some?
    ensures run.children.Some? && |run.nodes| == |level.Ids(db)|
    ensures |run.children.value.nodes| == |level.Children(db).Records(db)|
    ensures ListIn(run.state, run.nodes[k], ChildrenEdge) ==
      ChildList(level.Children(db).Records(db), run.children.value.nodes, level.Ids(db), k)
  {
    assert ListsOf(run, level, db, k)[ChildrenEdge] ==
      ChildList(level.Children(db).Records(db), run.children.value.nodes, level.Ids(db), k);
  }

  lemma ChildListsAreShares(run: Run, level: Level, db: Database, unmarshal: Unmarshal)
    requires RunLoaded(run, level, db, unmarshal) && level.plan.children.Some? && run.nodes != []
    ensures run.children.Some? && |run.nodes| == |level.Ids(db)|
    ensures |run.children.value.nodes| == |level.Children(db).Records(db)|
    ensures ListsAt(run, ChildrenEdge) ==
      Shares(run.children.value.nodes, RecordKeys(level.Children(db).Records(db), ParentAccountID),
             |run.children.value.nodes|, Owned(level.Ids(db)))
  {
    ChildListAt(run, level, db, unmarshal, 0);
    forall k | 0 <= k < |run.nodes|
      ensures ListsAt(run, ChildrenEdge)[k] ==
        ChildList(level.Children(db).Records(db), run.children.value.nodes, level.Ids(db), k)
    {
      ChildListAt(run, level, db, unmarshal, k);
    }
  }

  lemma ChildrenAreKnown(level: Level, db: Database)
    requires Honest(level, db) && level.Records(db) != [] && level.plan.children.Some?
    ensures KnownChildren(level, db)
  {
    assert ChildrenEdge in ALL_EDGES;
    assert EdgeHonest(level, ChildrenEdge, db);
  }

  lemma KnownChildrenAreShared(level: Level, db: Database, nested: seq<Entity>)
    requires level.plan.children.Some? && KnownChildren(level, db) && |nested| == |level.Children(db).Records(db)|
    ensures var fks, ids := RecordKeys(level.Children(db).Records(db), ParentAccountID), level.Ids(db);
      Together(Shares(nested, fks, |nested|, Owned(ids)), |ids|) == multiset(nested)
  {
    SharedIsAll(nested, RecordKeys(level.Children(db).Records(db), ParentAccountID), |nested|, level.Ids(db));
    assert nested[..|nested|] == nested;
  }

  // The nodes of a run share out the nodes of the children's run: none lost, none twice, even if nodes share an ID.
  lemma RunConservesChildren(run: Run, level: Level, db: Database, unmarshal: Unmarshal)
    requires RunLoaded(run, level, db, unmarshal) && Honest(level, db) && level.Records(db) != []
    requires level.plan.children.Some?
    ensures run.children.Some? && HandedOut(run, ChildrenEdge) == multiset(run.children.value.nodes)
  {
    ChildrenAreKnown(level, db);
    NodeCount(run, level, db, unmarshal);
    ChildListsAreShares(run, level, db, unmarshal);
    KnownChildrenAreShared(level, db, run.children.value.nodes);
  }
}
