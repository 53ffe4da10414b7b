/**
 What an audit report says: pick_advisory_id, iter_vulns and the normalize_* functions of
 tools/check_pnpm_audit_exceptions.py (lines 51-131), on decoded JSON.
 */
module AuditFindings {
  import opened Wrappers
  import opened Text

  datatype Json =
    | Null
    | Bool(flag: bool)
    | Number(digits: string, zero: bool)
    | Str(str: string)
    | List(items: seq<Json>)
    | Dict(fields: seq<(string, Json)>)

  predicate Truthy(j: Json) {
    match j
    case Null => false
    case Bool(b) => b
    case Number(_, zero) => !zero
    case Str(s) => s != ""
    case List(items) => items != []
    case Dict(fields) => fields != []
  }

  // fields.get(key): None is null too.
  function Get(fields: seq<(string, Json)>, key: string): Json {
    if fields == [] then Null else if fields[0].0 == key then fields[0].1 else Get(fields[1..], key)
  }

  // `a or b`.
  function Or(a: Json, b: Json): Json { if Truthy(a) then a else b }

  // A longer chain of them.
  function OrAll(candidates: seq<Json>): Json
    requires candidates != []
  {
    if |candidates| == 1 || Truthy(candidates[0]) then candidates[0] else OrAll(candidates[1..])
  }

  // The library calls the tool relies on: str.lower, str on lists and objects, date.fromisoformat, and the day it runs.
  datatype Library = Library(lower: string -> string, show: Json -> string, parseDate: string -> Option<int>,
                             today: int)

  function Lower(s: string, lib: Library): string { if s == "" then "" else lib.lower(s) }

  // str(j).
  function StrOf(j: Json, lib: Library): string {
    match j
    case Null => "None"
    case Bool(b) => if b then "True" else "False"
    case Number(digits, _) => digits
    case Str(s) => s
    case _ => lib.show(j)
  }

  // normalize_severity; None is the exception for a value that is true but no string.
  function NormalizeSeverity(severity: Json, lib: Library): Option<string> {
    if !Truthy(severity) then Some("") else if severity.Str? then Some(Lower(Strip(severity.str), lib)) else None
  }

  function NormalizePackage(name: Json, lib: Library): string {
    if name.Null? then "" else Strip(StrOf(name, lib))
  }

  function NormalizeAdvisory(advisory: Json, lib: Library): string {
    if advisory.Null? then "" else Lower(Strip(StrOf(advisory, lib)), lib)
  }

  // One yield of iter_vulns, without the title, which only ends up in messages.
  datatype Finding = Finding(name: Json, severity: Json, advisory: Json)

  // (advisory.get("cves") or [None])[0]; None is an exception.
  function FirstCve(cves: Json): Option<Json> {
    if !Truthy(cves) then Some(Null)
    else
      match cves
      case List(items) => Some(items[0])
      case Str(s) => Some(Str([s[0]]))
      case _ => None
  }

  function PickAdvisoryId(a: seq<(string, Json)>, lib: Library): Option<Json> {
    var stable := Or(Get(a, "github_advisory_id"), Get(a, "url"));
    if Truthy(stable) then Some(stable)
    else
      var cve := FirstCve(Get(a, "cves"));
      if cve.None? then None
      else
        var id := if Get(a, "id").Null? then Null else Str(StrOf(Get(a, "id"), lib));
        Some(OrAll([cve.value, id, Get(a, "title"), Get(a, "advisory"), Get(a, "overview")]))
  }

  // The finding of one entry under "advisories".
  function AdvisoryFinding(entry: Json, lib: Library): Option<Finding> {
    if !entry.Dict? then None
    else
      var a := entry.fields;
      match PickAdvisoryId(a, lib)
      case Some(id) => Some(Finding(Or(Get(a, "module_name"), Get(a, "name")), Get(a, "severity"), id))
      case None => None
  }

  // The id and the title one item of "via" contributes, if any.
  function ViaId(item: Json): Json {
    match item
    case Dict(v) =>
      OrAll([Get(v, "github_advisory_id"), Get(v, "url"), Get(v, "source"), Get(v, "title"), Get(v, "name")])
    case Str(_) => item
    case _ => Null
  }

  function ViaTitle(item: Json): Json {
    match item
    case Dict(v) => OrAll([Get(v, "title"), Get(v, "url"), Get(v, "advisory"), Get(v, "source")])
    case Str(_) => item
    case _ => Null
  }

  function ViaItems(via: Json): seq<Json> {
    match via
    case List(items) => items
    case Str(_) => [via]
    case _ => []
  }

  // Joining the titles raises for one that is true but no string.
  predicate TitlesJoin(items: seq<Json>) {
    forall i :: 0 <= i < |items| && Truthy(ViaTitle(items[i])) ==> ViaTitle(items[i]).Str?
  }

  // The usable ids of the first n items, in order.
  function UsableIds(items: seq<Json>, n: nat): (ids: seq<Json>)
    requires n <= |items|
    ensures |ids| <= n && forall id :: id in ids ==> Truthy(id)
  {
    if n == 0 then []
    else if Truthy(ViaId(items[n - 1])) then UsableIds(items, n - 1) + [ViaId(items[n - 1])]
    else UsableIds(items, n - 1)
  }

  function FindingsFor(name: string, severity: Json, ids: seq<Json>): (r: seq<Finding>)
    ensures |r| == |ids| && forall i :: 0 <= i < |ids| ==> r[i] == Finding(Str(name), severity, ids[i])
  {
    seq(|ids|, i requires 0 <= i < |ids| => Finding(Str(name), severity, ids[i]))
  }

  // The findings of one entry under "vulnerabilities".
  function VulnerabilityFindings(name: string, entry: Json): Option<seq<Finding>> {
    if !entry.Dict? then None
    else
      var items := ViaItems(Get(entry.fields, "via"));
      if !TitlesJoin(items) then None
      else Some(FindingsFor(name, Get(entry.fields, "severity"), UsableIds(items, |items|)))
  }

  // The findings of the first n entries; None once one raises.
  function FromAdvisories(entries: seq<(string, Json)>, lib: Library, n: nat): Option<seq<Finding>>
    requires n <= |entries|
  {
    if n == 0 then Some([])
    else
      var before, last := FromAdvisories(entries, lib, n - 1), AdvisoryFinding(entries[n - 1].1, lib);
      if before.Some? && last.Some? then Some(before.value + [last.value]) else None
  }

  function FromVulnerabilities(entries: seq<(string, Json)>, n: nat): Option<seq<Finding>>
    requires n <= |entries|
  {
    if n == 0 then Some([])
    else
      var before := FromVulnerabilities(entries, n - 1);
      var last := VulnerabilityFindings(entries[n - 1].0, entries[n - 1].1);
      if before.Some? && last.Some? then Some(before.value + last.value) else None
  }

  function Fields(j: Json): seq<(string, Json)> { if j.Dict? then j.fields else [] }

  // Everything iter_vulns yields; None if it raises.
  function Findings(report: Json, lib: Library): Option<seq<Finding>> {
    if !report.Dict? then None
    else
      var advisories, vulnerabilities := Fields(Get(report.fields, "advisories")),
          Fields(Get(report.fields, "vulnerabilities"));
      var a, v := FromAdvisories(advisories, lib, |advisories|),
          FromVulnerabilities(vulnerabilities, |vulnerabilities|);
      if a.Some? && v.Some? then Some(a.value + v.value) else None
  }

  // ---- The code ----

  // One entry under "vulnerabilities".
  method YieldVulnerability(name: string, entry: Json) returns (r: Option<seq<Finding>>)
    ensures r == VulnerabilityFindings(name, entry)
  {
    if !entry.Dict? { return None; }
    var severity, via := Get(entry.fields, "severity"), Get(entry.fields, "via");
    var items := if via.List? then via.items else if via.Str? then [via] else [];
    var ids: seq<Json>, joins := [], true;
    for i := 0 to |items|
      invariant ids == UsableIds(items, i)
      invariant joins <==> forall k :: 0 <= k < i && Truthy(ViaTitle(items[k])) ==> ViaTitle(items[k]).Str?
    {
      if Truthy(ViaTitle(items[i])) && !ViaTitle(items[i]).Str? { joins := false; }
      if Truthy(ViaId(items[i])) { ids := ids + [ViaId(items[i])]; }
    }
    if !joins { return None; }
    return Some(FindingsFor(name, severity, ids));
  }

  method IterAdvisories(entries: seq<(string, Json)>, lib: Library) returns (r: Option<seq<Finding>>)
    ensures r == FromAdvisories(entries, lib, |entries|)
  {
    var found: seq<Finding> := [];
    for i := 0 to |entries|
      invariant FromAdvisories(entries, lib, i) == Some(found)
    {
      var one := AdvisoryFinding(entries[i].1, lib);
      if one.None? {
        NoneStays(entries, [], lib, i + 1, |entries|);
        return None;
      }
      found := found + [one.value];
    }
    return Some(found);
  }

  method IterVulnerabilities(entries: seq<(string, Json)>, ghost lib: Library) returns (r: Option<seq<Finding>>)
    ensures r == FromVulnerabilities(entries, |entries|)
  {
    var found: seq<Finding> := [];
    for i := 0 to |entries|
      invariant FromVulnerabilities(entries, i) == Some(found)
    {
      var some := YieldVulnerability(entries[i].0, entries[i].1);
      if some.None? {
        assert FromVulnerabilities(entries, i + 1) == None;
        NoneStays([], entries, lib, i + 1, |entries|);
        return None;
      }
      assert FromVulnerabilities(entries, i + 1) == Some(found + some.value);
      found := found + some.value;
    }
    return Some(found);
  }

  // iter_vulns, run to its end.
  method IterVulns(report: Json, lib: Library) returns (r: Option<seq<Finding>>)
    ensures r == Findings(report, lib)
  {
    if !report.Dict? { return None; }
    var a := IterAdvisories(Fields(Get(report.fields, "advisories")), lib);
    if a.None? { return None; }
    var v := IterVulnerabilities(Fields(Get(report.fields, "vulnerabilities")), lib);
    if v.None? { return None; }
    return Some(a.value + v.value);
  }

  lemma {:induction false} NoneStays(a: seq<(string, Json)>, v: seq<(string, Json)>, lib: Library, n: nat, m: nat)
    requires n <= m
    ensures m <= |a| && FromAdvisories(a, lib, n) == None ==> FromAdvisories(a, lib, m) == None
    ensures m <= |v| && FromVulnerabilities(v, n) == None ==> FromVulnerabilities(v, m) == None
    decreases m
  {
    if n < m { NoneStays(a, v, lib, n, m - 1); }
  }

  // ---- What it yields ----

  // Every finding from "vulnerabilities" has an id and the entry's key as its name.
  lemma {:induction false} VulnerabilitiesHaveIds(entries: seq<(string, Json)>, n: nat)
    requires n <= |entries| && FromVulnerabilities(entries, n).Some?
    ensures var found := FromVulnerabilities(entries, n).value;
      forall k :: 0 <= k < |found| ==> Truthy(found[k].advisory) && found[k].name.Str?
  {
    if n > 0 {
      VulnerabilitiesHaveIds(entries, n - 1);
      FindingsHaveIds(entries[n - 1].0, entries[n - 1].1);
    }
  }

  lemma FindingsHaveIds(name: string, entry: Json)
    requires VulnerabilityFindings(name, entry).Some?
    ensures var found := VulnerabilityFindings(name, entry).value;
      forall k :: 0 <= k < |found| ==> Truthy(found[k].advisory) && found[k].name.Str?
  {
    var items := ViaItems(Get(entry.fields, "via"));
    var ids := UsableIds(items, |items|);
    forall k | 0 <= k < |ids| ensures Truthy(ids[k]) {
      assert ids[k] in ids;
    }
  }

  // An entry yields nothing exactly if none of its items gives an id, and every id given is yielded.
  lemma {:induction false} DroppedExactlyWithoutIds(items: seq<Json>, n: nat)
    requires n <= |items|
    ensures UsableIds(items, n) == [] <==> forall i :: 0 <= i < n ==> !Truthy(ViaId(items[i]))
    ensures forall i :: 0 <= i < n && Truthy(ViaId(items[i])) ==> ViaId(items[i]) in UsableIds(items, n)
    ensures forall id :: id in UsableIds(items, n) ==> exists i ::
      0 <= i < n && Truthy(ViaId(items[i])) && ViaId(items[i]) == id
  {
    if n > 0 {
      DroppedExactlyWithoutIds(items, n - 1);
      if Truthy(ViaId(items[n - 1])) {
        assert forall id :: id in UsableIds(items, n) ==> id in UsableIds(items, n - 1) || id == ViaId(items[n - 1]);
      }
    }
  }

  // ---- Which id it picks ----

  // The first true candidate, or the last candidate when none is true.
  ghost predicate FirstTrue(candidates: seq<Json>, picked: Json) {
    exists i :: 0 <= i < |candidates| && candidates[i] == picked
                && (forall j :: 0 <= j < i ==> !Truthy(candidates[j])) && (Truthy(picked) || i == |candidates| - 1)
  }

  // The first of the "cves", if there is one.
  function FirstItem(cves: Json): Json {
    match cves
    case List(items) => if items == [] then Null else items[0]
    case Str(s) => if s == "" then Null else Str([s[0]])
    case _ => Null
  }

  // An entry of "advisories" is identified by these, the most stable first.
  function IdCandidates(a: seq<(string, Json)>, lib: Library): seq<Json> {
    [Get(a, "github_advisory_id"), Get(a, "url"), FirstItem(Get(a, "cves")),
     if Get(a, "id") == Null then Null else Str(StrOf(Get(a, "id"), lib)), Get(a, "title"), Get(a, "advisory"),
     Get(a, "overview")]
  }

  lemma {:induction false} OrAllPicks(candidates: seq<Json>)
    requires candidates != []
    ensures FirstTrue(candidates, OrAll(candidates))
  {
    if |candidates| == 1 || Truthy(candidates[0]) {
      assert candidates[0] == OrAll(candidates);
    } else {
      OrAllPicks(candidates[1..]);
      OrPicks(candidates[0], candidates[1..], OrAll(candidates[1..]));
      assert [candidates[0]] + candidates[1..] == candidates;
    }
  }

  // `a or rest`.
  lemma OrPicks(a: Json, rest: seq<Json>, picked: Json)
    requires FirstTrue(rest, picked)
    ensures FirstTrue([a] + rest, Or(a, picked))
  {
    var i :| 0 <= i < |rest| && rest[i] == picked
             && (forall j :: 0 <= j < i ==> !Truthy(rest[j])) && (Truthy(picked) || i == |rest| - 1);
    var all := [a] + rest;
    assert all[if Truthy(a) then 0 else i + 1] == Or(a, picked);
  }

  // `a or b or rest`.
  lemma TwoThenChain(a: Json, b: Json, rest: seq<Json>)
    requires rest != []
    ensures FirstTrue([a, b] + rest, Or(a, Or(b, OrAll(rest))))
  {
    OrAllPicks(rest);
    OrPicks(b, rest, OrAll(rest));
    OrPicks(a, [b] + rest, Or(b, OrAll(rest)));
    assert [a] + ([b] + rest) == [a, b] + rest;
  }

  // It picks the first true candidate, and raises exactly if it gets as far as a "cves" that is true but has no first
  // item.
  lemma PicksFirstTrue(a: seq<(string, Json)>, lib: Library)
    ensures PickAdvisoryId(a, lib).None? <==>
      && !Truthy(Get(a, "github_advisory_id")) && !Truthy(Get(a, "url"))
      && Truthy(Get(a, "cves")) && !Get(a, "cves").List? && !Get(a, "cves").Str?
    ensures PickAdvisoryId(a, lib).Some? ==> FirstTrue(IdCandidates(a, lib), PickAdvisoryId(a, lib).value)
  {
    var cs := IdCandidates(a, lib);
    if PickAdvisoryId(a, lib).Some? {
      TwoThenChain(cs[0], cs[1], cs[2..]);
      assert [cs[0], cs[1]] + cs[2..] == cs && cs[2..] == [cs[2], cs[3], cs[4], cs[5], cs[6]];
    }
  }

  // So does an item of "via", among its own five.
  lemma ViaPicksFirstTrue(v: seq<(string, Json)>)
    ensures FirstTrue([Get(v, "github_advisory_id"), Get(v, "url"), Get(v, "source"), Get(v, "title"), Get(v, "name")],
                      ViaId(Dict(v)))
  {
    OrAllPicks([Get(v, "github_advisory_id"), Get(v, "url"), Get(v, "source"), Get(v, "title"), Get(v, "name")]);
  }
  lemma FirstTrueIsUnique(candidates: seq<Json>, a: Json, b: Json)
    requires FirstTrue(candidates, a) && FirstTrue(candidates, b)
    ensures a == b
  {}

  // ---- The findings of a report, told on its entries ----

  // What get answers: the value of the first pair with the key, or null.
  lemma {:induction false} GetMeans(fields: seq<(string, Json)>, key: string)
    ensures forall i :: 0 <= i < |fields| && fields[i].0 == key && (forall j :: 0 <= j < i ==> fields[j].0 != key) ==>
      Get(fields, key) == fields[i].1
    ensures (forall i :: 0 <= i < |fields| ==> fields[i].0 != key) ==> Get(fields, key) == Null
  {
    if fields != [] && fields[0].0 != key {
      GetMeans(fields[1..], key);
      forall i | 0 < i < |fields| && fields[i].0 == key && (forall j :: 0 <= j < i ==> fields[j].0 != key)
        ensures Get(fields, key) == fields[i].1
      {
        assert fields[1..][i - 1] == fields[i];
        forall j | 0 <= j < i - 1 ensures fields[1..][j].0 != key {
          assert fields[1..][j] == fields[j + 1];
        }
      }
    }
  }

  // str(j), by kind of value.
  lemma StrOfMeans(j: Json, lib: Library)
    ensures j == Null ==> StrOf(j, lib) == "None"
    ensures j.Bool? ==> StrOf(j, lib) == if j.flag then "True" else "False"
    ensures j.Number? ==> StrOf(j, lib) == j.digits
    ensures j.Str? ==> StrOf(j, lib) == j.str
    ensures j.List? || j.Dict? ==> StrOf(j, lib) == lib.show(j)
  {}

  // An entry under "advisories" gives the finding: the entry's own severity, its module name or else its name, and the
  // first true candidate for an id.
  ghost predicate AdvisoryGives(entry: Json, lib: Library, f: Finding) {
    && entry.Dict? && f.severity == Get(entry.fields, "severity")
    && FirstTrue([Get(entry.fields, "module_name"), Get(entry.fields, "name")], f.name)
    && FirstTrue(IdCandidates(entry.fields, lib), f.advisory)
  }

  // It raises: no object, or "cves" that are true but have no first item are as far as it gets.
  predicate AdvisoryRaises(entry: Json) {
    !entry.Dict? || (
      && !Truthy(Get(entry.fields, "github_advisory_id")) && !Truthy(Get(entry.fields, "url"))
      && Truthy(Get(entry.fields, "cves")) && !Get(entry.fields, "cves").List? && !Get(entry.fields, "cves").Str?)
  }

  lemma AdvisoryFindingMeans(entry: Json, lib: Library)
    ensures AdvisoryFinding(entry, lib).None? <==> AdvisoryRaises(entry)
    ensures AdvisoryFinding(entry, lib).Some? ==> AdvisoryGives(entry, lib, AdvisoryFinding(entry, lib).value)
  {
    if entry.Dict? {
      var a := entry.fields;
      PicksFirstTrue(a, lib);
      OrPicksOne(Get(a, "module_name"), Get(a, "name"));
    }
  }

  lemma OrPicksOne(a: Json, b: Json)
    ensures FirstTrue([a, b], Or(a, b))
  {
    assert [a, b][if Truthy(a) then 0 else 1] == Or(a, b);
  }

  lemma {:induction false} AdvisoriesRaise(entries: seq<(string, Json)>, lib: Library, n: nat)
    requires n <= |entries|
    ensures FromAdvisories(entries, lib, n).None? <==> exists i :: 0 <= i < n && AdvisoryRaises(entries[i].1)
  {
    if n > 0 {
      AdvisoriesRaise(entries, lib, n - 1);
      AdvisoryFindingMeans(entries[n - 1].1, lib);
    }
  }

  lemma {:induction false} AdvisoriesGive(entries: seq<(string, Json)>, lib: Library, n: nat)
    requires n <= |entries| && FromAdvisories(entries, lib, n).Some?
    ensures var found := FromAdvisories(entries, lib, n).value;
      |found| == n && forall i :: 0 <= i < n ==> AdvisoryGives(entries[i].1, lib, found[i])
  {
    if n > 0 {
      AdvisoriesGive(entries, lib, n - 1);
      AdvisoryFindingMeans(entries[n - 1].1, lib);
      OneMoreGiven(entries, lib, FromAdvisories(entries, lib, n - 1).value,
                   AdvisoryFinding(entries[n - 1].1, lib).value);
    }
  }

  lemma OneMoreGiven(entries: seq<(string, Json)>, lib: Library, found: seq<Finding>, f: Finding)
    requires |found| < |entries| && AdvisoryGives(entries[|found|].1, lib, f)
    requires forall i :: 0 <= i < |found| ==> AdvisoryGives(entries[i].1, lib, found[i])
    ensures forall i :: 0 <= i < |found + [f]| ==> AdvisoryGives(entries[i].1, lib, (found + [f])[i])
  {}

  // Each entry under "advisories" yields exactly one finding, in order, and it is the entry's own.
  lemma OneFindingPerAdvisory(entries: seq<(string, Json)>, lib: Library, n: nat)
    requires n <= |entries|
    ensures FromAdvisories(entries, lib, n).None? <==> exists i :: 0 <= i < n && AdvisoryRaises(entries[i].1)
    ensures FromAdvisories(entries, lib, n).Some? ==> var found := FromAdvisories(entries, lib, n).value;
      |found| == n && forall i :: 0 <= i < n ==> AdvisoryGives(entries[i].1, lib, found[i])
  {
    AdvisoriesRaise(entries, lib, n);
    if FromAdvisories(entries, lib, n).Some? {
      AdvisoriesGive(entries, lib, n);
    }
  }

  // The item stands under "via", which may be a list or the item itself.
  predicate StandsIn(via: Json, item: Json) {
    match via
    case List(items) => item in items
    case Str(_) => item == via
    case _ => false
  }

  // What an item of "via" gives as an id, and which of them break the joining of the titles.
  ghost predicate ItemGives(item: Json, id: Json) {
    && Truthy(id)
    && match item
       case Dict(v) =>
         FirstTrue([Get(v, "github_advisory_id"), Get(v, "url"), Get(v, "source"), Get(v, "title"), Get(v, "name")], id)
       case Str(_) => id == item
       case _ => false
  }

  ghost predicate ItemBreaks(item: Json) {
    item.Dict? && exists title ::
      && FirstTrue([Get(item.fields, "title"), Get(item.fields, "url"), Get(item.fields, "advisory"),
                    Get(item.fields, "source")], title)
      && Truthy(title) && !title.Str?
  }

  lemma ItemMeans(item: Json, id: Json)
    ensures ItemGives(item, id) <==> Truthy(ViaId(item)) && ViaId(item) == id
    ensures ItemBreaks(item) <==> Truthy(ViaTitle(item)) && !ViaTitle(item).Str?
  {
    if item.Dict? {
      var v := item.fields;
      ViaPicksFirstTrue(v);
      OrAllPicks([Get(v, "title"), Get(v, "url"), Get(v, "advisory"), Get(v, "source")]);
      if ItemGives(item, id) {
        FirstTrueIsUnique([Get(v, "github_advisory_id"), Get(v, "url"), Get(v, "source"), Get(v, "title"),
                           Get(v, "name")], id, ViaId(item));
      }
      TitleMeans(item);
    }
  }

  lemma TitleMeans(item: Json)
    requires item.Dict?
    ensures ItemBreaks(item) <==> Truthy(ViaTitle(item)) && !ViaTitle(item).Str?
  {
    var v := item.fields;
    var titles := [Get(v, "title"), Get(v, "url"), Get(v, "advisory"), Get(v, "source")];
    OrAllPicks(titles);
    if ItemBreaks(item) {
      var title :| FirstTrue(titles, title) && Truthy(title) && !title.Str?;
      FirstTrueIsUnique(titles, title, ViaTitle(item));
    }
  }

  // An entry under "vulnerabilities" gives the finding: its key, its severity, and the id one of its items gives.
  ghost predicate EntryGives(name: string, entry: Json, f: Finding) {
    && entry.Dict? && f.name == Str(name) && f.severity == Get(entry.fields, "severity")
    && exists item :: StandsIn(Get(entry.fields, "via"), item) && ItemGives(item, f.advisory)
  }

  ghost predicate EntryRaises(entry: Json) {
    !entry.Dict? || exists item :: StandsIn(Get(entry.fields, "via"), item) && ItemBreaks(item)
  }

  lemma ItemsStand(via: Json, item: Json)
    ensures StandsIn(via, item) <==> item in ViaItems(via)
  {}

  lemma YieldedIsGiven(name: string, entry: Json, f: Finding)
    requires VulnerabilityFindings(name, entry).Some? && f in VulnerabilityFindings(name, entry).value
    ensures EntryGives(name, entry, f)
  {
    var via := Get(entry.fields, "via");
    var items, found := ViaItems(via), VulnerabilityFindings(name, entry).value;
    DroppedExactlyWithoutIds(items, |items|);
    var k :| 0 <= k < |found| && found[k] == f;
    assert f.advisory in UsableIds(items, |items|);
    var j :| 0 <= j < |items| && Truthy(ViaId(items[j])) && ViaId(items[j]) == f.advisory;
    ItemMeans(items[j], f.advisory);
    ItemsStand(via, items[j]);
    assert StandsIn(via, items[j]) && ItemGives(items[j], f.advisory);
  }

  lemma GivenIsYielded(name: string, entry: Json, f: Finding)
    requires VulnerabilityFindings(name, entry).Some? && EntryGives(name, entry, f)
    ensures f in VulnerabilityFindings(name, entry).value
  {
    var via := Get(entry.fields, "via");
    var items, found := ViaItems(via), VulnerabilityFindings(name, entry).value;
    DroppedExactlyWithoutIds(items, |items|);
    var item :| StandsIn(via, item) && ItemGives(item, f.advisory);
    ItemMeans(item, f.advisory);
    ItemsStand(via, item);
    var j :| 0 <= j < |items| && items[j] == item;
    assert ViaId(items[j]) in UsableIds(items, |items|);
    var k :| 0 <= k < |found| && UsableIds(items, |items|)[k] == f.advisory;
    assert found[k] == f;
  }

  lemma EntryRaisesExactly(name: string, entry: Json)
    ensures VulnerabilityFindings(name, entry).None? <==> EntryRaises(entry)
  {
    if entry.Dict? {
      var via := Get(entry.fields, "via");
      var items := ViaItems(via);
      forall i | 0 <= i < |items|
        ensures ItemBreaks(items[i]) <==> Truthy(ViaTitle(items[i])) && !ViaTitle(items[i]).Str?
      {
        ItemMeans(items[i], Null);
      }
      if !TitlesJoin(items) {
        var i :| 0 <= i < |items| && Truthy(ViaTitle(items[i])) && !ViaTitle(items[i]).Str?;
        ItemsStand(via, items[i]);
        assert StandsIn(via, items[i]) && ItemBreaks(items[i]);
      }
      if item :| StandsIn(via, item) && ItemBreaks(item) {
        ItemsStand(via, item);
        var i :| 0 <= i < |items| && items[i] == item;
        assert ItemBreaks(items[i]);
      }
    }
  }

  // Some entry gives the finding.
  ghost predicate SomeGives(entries: seq<(string, Json)>, n: nat, f: Finding)
    requires n <= |entries|
  {
    exists i :: 0 <= i < n && EntryGives(entries[i].0, entries[i].1, f)
  }

  lemma LastEntryGives(entries: seq<(string, Json)>, n: nat, f: Finding)
    requires 0 < n <= |entries| && FromVulnerabilities(entries, n).Some?
    requires f in FromVulnerabilities(entries, n - 1).value <==> SomeGives(entries, n - 1, f)
    ensures f in FromVulnerabilities(entries, n).value <==> SomeGives(entries, n, f)
  {
    var name, entry := entries[n - 1].0, entries[n - 1].1;
    if f in VulnerabilityFindings(name, entry).value {
      YieldedIsGiven(name, entry, f);
    }
    if EntryGives(name, entry, f) {
      GivenIsYielded(name, entry, f);
    }
    assert SomeGives(entries, n, f) <==> SomeGives(entries, n - 1, f) || EntryGives(name, entry, f);
  }

  lemma {:induction false} VulnerabilitiesRaise(entries: seq<(string, Json)>, n: nat)
    requires n <= |entries|
    ensures FromVulnerabilities(entries, n).None? <==> exists i :: 0 <= i < n && EntryRaises(entries[i].1)
  {
    if n > 0 {
      VulnerabilitiesRaise(entries, n - 1);
      EntryRaisesExactly(entries[n - 1].0, entries[n - 1].1);
    }
  }

  lemma {:induction false} VulnerabilitiesGive(entries: seq<(string, Json)>, n: nat, f: Finding)
    requires n <= |entries| && FromVulnerabilities(entries, n).Some?
    ensures f in FromVulnerabilities(entries, n).value <==> SomeGives(entries, n, f)
  {
    if n > 0 {
      VulnerabilitiesGive(entries, n - 1, f);
      LastEntryGives(entries, n, f);
    }
  }

  // Under "vulnerabilities" it yields exactly the true ids of the items, each with its entry's key and severity; and it
  // raises exactly if some entry is no object or has titles that cannot be joined.
  lemma VulnerabilitiesExact(entries: seq<(string, Json)>, n: nat)
    requires n <= |entries|
    ensures FromVulnerabilities(entries, n).None? <==> exists i :: 0 <= i < n && EntryRaises(entries[i].1)
    ensures FromVulnerabilities(entries, n).Some? ==>
      forall f :: f in FromVulnerabilities(entries, n).value <==> SomeGives(entries, n, f)
  {
    VulnerabilitiesRaise(entries, n);
    if FromVulnerabilities(entries, n).Some? {
      forall f ensures f in FromVulnerabilities(entries, n).value <==> SomeGives(entries, n, f) {
        VulnerabilitiesGive(entries, n, f);
      }
    }
  }

  // The entries of a report under one key; there are none if that is no object.
  function Entries(report: Json, key: string): seq<(string, Json)>
    requires report.Dict?
  {
    match Get(report.fields, key)
    case Dict(fields) => fields
    case _ => []
  }

  // The report gives the finding: by an entry under "advisories", or by one under "vulnerabilities".
  ghost predicate ReportGives(report: Json, lib: Library, f: Finding) {
    report.Dict? && (
      || (exists i :: 0 <= i < |Entries(report, "advisories")| &&
            AdvisoryGives(Entries(report, "advisories")[i].1, lib, f))
      || SomeGives(Entries(report, "vulnerabilities"), |Entries(report, "vulnerabilities")|, f))
  }

  ghost predicate ReportRaises(report: Json) {
    !report.Dict?
    || (exists i :: 0 <= i < |Entries(report, "advisories")| && AdvisoryRaises(Entries(report, "advisories")[i].1))
    || exists i :: 0 <= i < |Entries(report, "vulnerabilities")| &&
         EntryRaises(Entries(report, "vulnerabilities")[i].1)
  }

  lemma AdvisoriesExact(entries: seq<(string, Json)>, lib: Library, f: Finding)
    requires FromAdvisories(entries, lib, |entries|).Some?
    ensures f in FromAdvisories(entries, lib, |entries|).value <==>
      exists i :: 0 <= i < |entries| && AdvisoryGives(entries[i].1, lib, f)
  {
    var found := FromAdvisories(entries, lib, |entries|).value;
    OneFindingPerAdvisory(entries, lib, |entries|);
    if i :| 0 <= i < |entries| && AdvisoryGives(entries[i].1, lib, f) {
      GivenOnce(entries[i].1, lib, f, found[i]);
      assert found[i] in found;
    }
  }

  lemma GivenOnce(entry: Json, lib: Library, f: Finding, g: Finding)
    requires AdvisoryGives(entry, lib, f) && AdvisoryGives(entry, lib, g)
    ensures f == g
  {
    FirstTrueIsUnique([Get(entry.fields, "module_name"), Get(entry.fields, "name")], f.name, g.name);
    FirstTrueIsUnique(IdCandidates(entry.fields, lib), f.advisory, g.advisory);
  }

  // iter_vulns raises exactly if the report or an entry does, and otherwise yields exactly what the entries give.
  lemma FindingsMean(report: Json, lib: Library)
    ensures Findings(report, lib).None? <==> ReportRaises(report)
    ensures Findings(report, lib).Some? ==>
      forall f :: f in Findings(report, lib).value <==> ReportGives(report, lib, f)
  {
    if report.Dict? {
      var a, v := Entries(report, "advisories"), Entries(report, "vulnerabilities");
      OneFindingPerAdvisory(a, lib, |a|);
      VulnerabilitiesExact(v, |v|);
      if Findings(report, lib).Some? {
        forall f ensures f in Findings(report, lib).value <==> ReportGives(report, lib, f) {
          AdvisoriesExact(a, lib, f);
        }
      }
    }
  }
  // ---- In which order ----

  // The item at this place under "via".
  predicate StandsAt(via: Json, j: nat, item: Json) {
    match via
    case List(items) => j < |items| && items[j] == item
    case Str(_) => j == 0 && item == via
    case _ => false
  }

  // Entry `at.0`, by its item `at.1`, gives the finding.
  ghost predicate GivenAt(entries: seq<(string, Json)>, at: (nat, nat), f: Finding) {
    && at.0 < |entries| && entries[at.0].1.Dict? && f.name == Str(entries[at.0].0)
    && f.severity == Get(entries[at.0].1.fields, "severity")
    && exists item :: StandsAt(Get(entries[at.0].1.fields, "via"), at.1, item) && ItemGives(item, f.advisory)
  }

  predicate Before(a: (nat, nat), b: (nat, nat)) { a.0 < b.0 || (a.0 == b.0 && a.1 < b.1) }

  ghost predicate GivenInOrder(entries: seq<(string, Json)>, found: seq<Finding>, at: seq<(nat, nat)>) {
    && |at| == |found| && (forall k :: 0 <= k < |found| ==> GivenAt(entries, at[k], found[k]))
    && forall k, l :: 0 <= k < l < |found| ==> Before(at[k], at[l])
  }

  lemma {:induction false} UsableIdsInOrder(items: seq<Json>, n: nat) returns (js: seq<nat>)
    requires n <= |items|
    ensures |js| == |UsableIds(items, n)| && forall k, l :: 0 <= k < l < |js| ==> js[k] < js[l]
    ensures forall k :: 0 <= k < |js| ==> js[k] < n && ItemGives(items[js[k]], UsableIds(items, n)[k])
  {
    js := [];
    if n > 0 {
      js := UsableIdsInOrder(items, n - 1);
      if Truthy(ViaId(items[n - 1])) {
        ItemMeans(items[n - 1], ViaId(items[n - 1]));
        js := js + [n - 1];
      }
    }
  }

  // The findings of one more entry stand behind those before it.
  lemma EntryInOrder(entries: seq<(string, Json)>, i: nat) returns (at: seq<(nat, nat)>)
    requires i < |entries| && VulnerabilityFindings(entries[i].0, entries[i].1).Some?
    ensures GivenInOrder(entries, VulnerabilityFindings(entries[i].0, entries[i].1).value, at)
    ensures forall k :: 0 <= k < |at| ==> at[k].0 == i
  {
    var via := Get(entries[i].1.fields, "via");
    var items, found := ViaItems(via), VulnerabilityFindings(entries[i].0, entries[i].1).value;
    var js := UsableIdsInOrder(items, |items|);
    at := seq(|js|, k requires 0 <= k < |js| => (i, js[k]));
    forall k | 0 <= k < |found| ensures GivenAt(entries, at[k], found[k]) {
      assert StandsAt(via, js[k], items[js[k]]) && ItemGives(items[js[k]], found[k].advisory);
    }
  }

  // Under "vulnerabilities", findings come entry by entry, and within an entry item by item.
  lemma {:induction false} VulnerabilitiesInOrder(entries: seq<(string, Json)>, n: nat) returns (at: seq<(nat, nat)>)
    requires n <= |entries| && FromVulnerabilities(entries, n).Some?
    ensures GivenInOrder(entries, FromVulnerabilities(entries, n).value, at)
    ensures forall k :: 0 <= k < |at| ==> at[k].0 < n
  {
    at := [];
    if n > 0 {
      var before := VulnerabilitiesInOrder(entries, n - 1);
      var last := EntryInOrder(entries, n - 1);
      OrderGoesOn(entries, FromVulnerabilities(entries, n - 1).value, before,
                  VulnerabilityFindings(entries[n - 1].0, entries[n - 1].1).value, last, n - 1);
      at := before + last;
    }
  }

  lemma OrderGoesOn(entries: seq<(string, Json)>, a: seq<Finding>, atA: seq<(nat, nat)>, b: seq<Finding>,
                    atB: seq<(nat, nat)>, i: nat)
    requires GivenInOrder(entries, a, atA) && GivenInOrder(entries, b, atB)
    requires (forall k :: 0 <= k < |atA| ==> atA[k].0 < i) && forall k :: 0 <= k < |atB| ==> atB[k].0 == i
    ensures GivenInOrder(entries, a + b, atA + atB)
  {}

  // The findings of a report: those of the advisories, one for each entry, and behind them the others, both in order.
  lemma FindingsInOrder(report: Json, lib: Library) returns (at: seq<(nat, nat)>)
    requires Findings(report, lib).Some?
    ensures report.Dict? && |Entries(report, "advisories")| <= |Findings(report, lib).value|
    ensures forall i :: 0 <= i < |Entries(report, "advisories")| ==>
      AdvisoryGives(Entries(report, "advisories")[i].1, lib, Findings(report, lib).value[i])
    ensures GivenInOrder(Entries(report, "vulnerabilities"),
                         Findings(report, lib).value[|Entries(report, "advisories")|..], at)
  {
    var a, v := Entries(report, "advisories"), Entries(report, "vulnerabilities");
    OneFindingPerAdvisory(a, lib, |a|);
    at := VulnerabilitiesInOrder(v, |v|);
    var first, rest := FromAdvisories(a, lib, |a|).value, FromVulnerabilities(v, |v|).value;
    assert Findings(report, lib).value == first + rest;
    assert (first + rest)[|first|..] == rest;
  }
}
