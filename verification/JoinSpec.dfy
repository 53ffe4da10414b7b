/**
 What many-to-many eager loading computes, stated on plain identifiers.

 A Link is one row of the join query: the parent's ID (`out`) and the neighbour's ID (`id`), as read
 by the Assign callback of loadGroups and loadProxies (backend/ent/account_query.go).
 */
module JoinSpec {
  datatype Link = Link(out: int, id: int)

  // Neighbour IDs of the whole stream, each once, in order of first appearance.
  function FirstIds(links: seq<Link>): seq<int> {
    if links == [] then []
    else
      var before := FirstIds(links[..|links| - 1]);
      if links[|links| - 1].id in before then before else before + [links[|links| - 1].id]
  }

  // Those of `ids` that are linked to `out`, in the order of `ids`.
  function LinkedAmong(ids: seq<int>, links: seq<Link>, out: int): seq<int> {
    if ids == [] then []
    else
      var before := LinkedAmong(ids[..|ids| - 1], links, out);
      if Link(out, ids[|ids| - 1]) in links then before + [ids[|ids| - 1]] else before
  }

  // The nested-loop join: for each neighbour, in stream order, test the parent against every link.
  function NaiveJoin(links: seq<Link>, out: int): seq<int> {
    LinkedAmong(FirstIds(links), links, out)
  }

  predicate Distinct<T(==)>(s: seq<T>) { forall i, j :: 0 <= i < j < |s| ==> s[i] != s[j] }

  ghost predicate Appears(links: seq<Link>, id: int) { exists l :: l in links && l.id == id }

  // Position of the first link naming `id`, or the length when there is none.
  function FirstAt(links: seq<Link>, id: int): nat {
    if links == [] then 0
    else
      var before := FirstAt(links[..|links| - 1], id);
      if before < |links| - 1 || links[|links| - 1].id == id then before else |links|
  }

  lemma {:induction false} FirstAtMeans(links: seq<Link>, id: int)
    ensures FirstAt(links, id) <= |links|
    ensures FirstAt(links, id) < |links| ==> links[FirstAt(links, id)].id == id
    ensures forall i :: 0 <= i < FirstAt(links, id) ==> links[i].id != id
  {
    if links != [] {
      FirstAtMeans(links[..|links| - 1], id);
    }
  }

  // FirstIds lists exactly the neighbours of the stream, once each, ordered by first appearance.
  lemma {:induction false} FirstIdsExact(links: seq<Link>)
    ensures Distinct(FirstIds(links))
    ensures forall id :: id in FirstIds(links) <==> Appears(links, id)
    ensures forall i, j :: 0 <= i < j < |FirstIds(links)| ==>
      FirstAt(links, FirstIds(links)[i]) < FirstAt(links, FirstIds(links)[j]) < |links|
    ensures forall id :: id in FirstIds(links) ==> FirstAt(links, id) < |links|
  {
    if links != [] {
      var last := |links| - 1;
      var prefix, ids := links[..last], FirstIds(links);
      FirstIdsExact(prefix);
      assert links == prefix + [links[last]];
      forall id ensures id in ids <==> Appears(links, id) {
        if Appears(prefix, id) {
          var l :| l in prefix && l.id == id;
          assert l in links;
        }
        if Appears(links, id) && !Appears(prefix, id) {
          var l :| l in links && l.id == id;
          assert l == links[last];
        }
        if id == links[last].id {
          assert links[last] in links;
        }
      }
      forall id | id in FirstIds(prefix) ensures FirstAt(links, id) == FirstAt(prefix, id) < last {}
      if links[last].id !in FirstIds(prefix) {
        FirstAtMeans(prefix, links[last].id);
        forall i | 0 <= i < last ensures prefix[i].id != links[last].id {
          assert prefix[i] in prefix;
        }
        assert FirstAt(links, links[last].id) == last;
      }
    }
  }

  lemma {:induction false} LinkedAmongExact(ids: seq<int>, links: seq<Link>, out: int)
    requires Distinct(ids)
    ensures Distinct(LinkedAmong(ids, links, out))
    ensures forall id :: id in LinkedAmong(ids, links, out) <==> id in ids && Link(out, id) in links
  {
    if ids != [] {
      LinkedAmongExact(ids[..|ids| - 1], links, out);
    }
  }

  lemma {:induction false} LinkedAmongWithin(ids: seq<int>, links: seq<Link>, out: int, i: nat) returns (k: nat)
    requires i < |LinkedAmong(ids, links, out)|
    ensures k < |ids| && ids[k] == LinkedAmong(ids, links, out)[i]
  {
    var last := |ids| - 1;
    if i < |LinkedAmong(ids[..last], links, out)| {
      k := LinkedAmongWithin(ids[..last], links, out, i);
    } else {
      k := last;
    }
  }

  // A filter keeps any strict order of what it filters.
  lemma {:induction false} LinkedAmongKeepsOrder(ids: seq<int>, links: seq<Link>, out: int, rank: int -> int)
    requires forall i, j :: 0 <= i < j < |ids| ==> rank(ids[i]) < rank(ids[j])
    ensures forall i, j :: 0 <= i < j < |LinkedAmong(ids, links, out)| ==>
      rank(LinkedAmong(ids, links, out)[i]) < rank(LinkedAmong(ids, links, out)[j])
  {
    if ids != [] {
      var init, last := ids[..|ids| - 1], ids[|ids| - 1];
      var before, r := LinkedAmong(init, links, out), LinkedAmong(ids, links, out);
      LinkedAmongKeepsOrder(init, links, out, rank);
      forall i | 0 <= i < |before| ensures rank(before[i]) < rank(last) {
        var k := LinkedAmongWithin(init, links, out, i);
        assert ids[k] == before[i];
      }
      assert r == before || r == before + [last];
    }
  }

  // A parent's list holds exactly its linked neighbours, each once however often the join row repeats,
  // in order of the neighbour's first appearance in the whole stream.
  lemma NaiveJoinExact(links: seq<Link>, out: int)
    ensures var r := NaiveJoin(links, out);
      && Distinct(r)
      && (forall id :: id in r <==> Link(out, id) in links)
      && forall i, j :: 0 <= i < j < |r| ==> FirstAt(links, r[i]) < FirstAt(links, r[j])
  {
    FirstIdsExact(links);
    LinkedAmongExact(FirstIds(links), links, out);
    var ids, r, rank := FirstIds(links), NaiveJoin(links, out), (id: int) => FirstAt(links, id) as int;
    forall i, j | 0 <= i < j < |ids| ensures rank(ids[i]) < rank(ids[j]) {
      assert FirstAt(links, ids[i]) < FirstAt(links, ids[j]);
    }
    LinkedAmongKeepsOrder(ids, links, out, rank);
    forall i, j | 0 <= i < j < |r| ensures FirstAt(links, r[i]) < FirstAt(links, r[j]) {
      assert rank(r[i]) < rank(r[j]);
    }
    forall id | Link(out, id) in links ensures Appears(links, id) {}
  }

  // Those three facts leave no freedom: any list with them is the join.
  lemma {:induction false} NaiveJoinUnique(links: seq<Link>, out: int, a: seq<int>, b: seq<int>)
    requires forall id :: id in a <==> id in b
    requires forall i, j :: 0 <= i < j < |a| ==> FirstAt(links, a[i]) < FirstAt(links, a[j])
    requires forall i, j :: 0 <= i < j < |b| ==> FirstAt(links, b[i]) < FirstAt(links, b[j])
    ensures a == b
  {
    assert a != [] ==> a[0] in a;
    assert b != [] ==> b[0] in b;
    if a != [] {
      assert a[0] in b && b[0] in a;
      assert a[0] == b[0];
      forall id ensures id in a[1..] <==> id in b[1..] {
        assert id in a[1..] <==> id in a && id != a[0];
        assert id in b[1..] <==> id in b && id != b[0];
      }
      NaiveJoinUnique(links, out, a[1..], b[1..]);
    }
  }

  // A stream ordered by any column of the neighbour gives every parent a list in that order.
  lemma SortedStreamGivesSortedLists(links: seq<Link>, out: int, rank: int -> int)
    requires forall i, j :: 0 <= i < j < |links| ==> rank(links[i].id) <= rank(links[j].id)
    ensures var r := NaiveJoin(links, out); forall i, j :: 0 <= i < j < |r| ==> rank(r[i]) <= rank(r[j])
  {
    var r := NaiveJoin(links, out);
    NaiveJoinExact(links, out);
    forall i, j | 0 <= i < j < |r| ensures rank(r[i]) <= rank(r[j]) {
      FirstIdsExact(links);
      assert r[i] in r && r[j] in r;
      assert Link(out, r[i]) in links && Link(out, r[j]) in links;
      assert Appears(links, r[i]) && Appears(links, r[j]);
      FirstAtMeans(links, r[i]);
      FirstAtMeans(links, r[j]);
    }
  }

  function LinkSet(links: seq<Link>): set<Link> { set l | l in links }

  lemma {:induction false} DistinctLength(s: seq<int>, out: int)
    requires Distinct(s)
    ensures |set id | id in s :: Link(out, id)| == |s|
  {
    var image := set id | id in s :: Link(out, id);
    if s != [] {
      var last := |s| - 1;
      DistinctLength(s[..last], out);
      var before := set id | id in s[..last] :: Link(out, id);
      assert s == s[..last] + [s[last]];
      assert image == before + {Link(out, s[last])};
      assert Link(out, s[last]) !in before;
    } else {
      assert image == {};
    }
  }

  // The first of the parent's own rows for the neighbour, or the length when there is none.
  function OwnAt(links: seq<Link>, out: int, id: int): (k: nat)
    ensures k <= |links| && (k < |links| ==> links[k] == Link(out, id))
    ensures forall i :: 0 <= i < k ==> links[i] != Link(out, id)
  {
    if links == [] then 0
    else
      var before := OwnAt(links[..|links| - 1], out, id);
      if before < |links| - 1 || links[|links| - 1] == Link(out, id) then before else |links|
  }

  // The parent's list is in the order of its own rows.
  ghost predicate OwnOrder(links: seq<Link>, out: int) {
    var r := NaiveJoin(links, out);
    forall i, j :: 0 <= i < j < |r| ==> OwnAt(links, out, r[i]) < OwnAt(links, out, r[j])
  }

  // The parent's own rows introduce its neighbours in the order in which the stream does.
  ghost predicate OwnRowsAgree(links: seq<Link>, out: int) {
    forall a, b :: Link(out, a) in links && Link(out, b) in links && FirstAt(links, a) < FirstAt(links, b)
                   ==> OwnAt(links, out, a) < OwnAt(links, out, b)
  }

  // The order is the stream's. It is the parent's own exactly if its rows agree with the stream.
  lemma OwnOrderExactly(links: seq<Link>, out: int)
    ensures OwnOrder(links, out) <==> OwnRowsAgree(links, out)
  {
    NaiveJoinExact(links, out);
    if OwnOrder(links, out) {
      forall a, b | Link(out, a) in links && Link(out, b) in links && FirstAt(links, a) < FirstAt(links, b)
        ensures OwnAt(links, out, a) < OwnAt(links, out, b)
      {
        OwnOrderGivesAgreement(links, out, a, b);
      }
    }
    if OwnRowsAgree(links, out) {
      var r := NaiveJoin(links, out);
      forall i, j | 0 <= i < j < |r| ensures OwnAt(links, out, r[i]) < OwnAt(links, out, r[j]) {
        assert r[i] in r && r[j] in r;
      }
    }
  }

  lemma OwnOrderGivesAgreement(links: seq<Link>, out: int, a: int, b: int)
    requires OwnOrder(links, out)
    requires Link(out, a) in links && Link(out, b) in links && FirstAt(links, a) < FirstAt(links, b)
    ensures OwnAt(links, out, a) < OwnAt(links, out, b)
  {
    var r := NaiveJoin(links, out);
    NaiveJoinExact(links, out);
    assert a in r && b in r;
    var i :| 0 <= i < |r| && r[i] == a;
    var j :| 0 <= j < |r| && r[j] == b;
  }

  // So it can differ: here parent 1 sees 11 before 10, and gets 10 first.
  lemma OwnRowOrderIsNotKept()
    ensures NaiveJoin([Link(2, 10), Link(1, 11), Link(1, 10)], 1) == [10, 11]
  {
    var links := [Link(2, 10), Link(1, 11), Link(1, 10)];
    var two, one := [Link(2, 10), Link(1, 11)], [Link(2, 10)];
    assert links[..2] == two && two[..1] == one && one[..0] == [];
    assert FirstIds(one) == [10] && FirstIds(two) == [10, 11] && FirstIds(links) == [10, 11];
    assert [10, 11][..1] == [10] && [10][..0] == [];
    assert links[1] in links && links[2] in links;
    assert LinkedAmong([10], links, 1) == [10];
  }
}
