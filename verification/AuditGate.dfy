/**
 The verdict of tools/check_pnpm_audit_exceptions.py (main, lines 142-243): the exception index, the scan that looks at
 each (package, advisory) key once, and how it compares with the plain check of every finding.
 */
module AuditGate {
  import opened Wrappers
  import opened Text
  import opened AuditExceptions
  import opened AuditFindings

  type Key = (string, string)

  // An indexed exception.
  datatype Excuse = Excuse(severity: string, expires: int)

  // ---- Exceptions ----

  function FieldOf(e: Entry, name: string): string { if name in e then e[name] else "" }

  predicate HasRequiredFields(e: Entry) {
    && FieldOf(e, "package") != "" && FieldOf(e, "advisory") != "" && FieldOf(e, "severity") != ""
    && FieldOf(e, "mitigation") != "" && FieldOf(e, "expires_on") != ""
  }

  function KeyOfException(e: Entry, lib: Library): Key {
    (NormalizePackage(Str(FieldOf(e, "package")), lib), NormalizeAdvisory(Str(FieldOf(e, "advisory")), lib))
  }

  function ExcuseOf(e: Entry, lib: Library): Option<Excuse> {
    match lib.parseDate(FieldOf(e, "expires_on"))
    case Some(date) => Some(Excuse(NormalizeSeverity(Str(FieldOf(e, "severity")), lib).value, date))
    case None => None
  }

  predicate WellFormed(e: Entry, lib: Library) {
    && HasRequiredFields(e) && ExcuseOf(e, lib).Some?
    && KeyOfException(e, lib).0 != "" && KeyOfException(e, lib).1 != ""
  }

  // The first n exceptions are well formed, and no two of them have the same key.
  ghost predicate Sound(exceptions: seq<Entry>, lib: Library, n: nat)
    requires n <= |exceptions|
  {
    && (forall i :: 0 <= i < n ==> WellFormed(exceptions[i], lib))
    && forall i, j :: 0 <= i < j < n ==> KeyOfException(exceptions[i], lib) != KeyOfException(exceptions[j], lib)
  }

  // What goes wrong, each with the exception or finding it is about.
  datatype Problem =
    | FieldsMissing(entry: Entry)
    | BadDate(entry: Entry)
    | BlankKey(entry: Entry)
    | Duplicate(entry: Entry)
    | NoAdvisoryId(finding: Finding)
    | SeverityMismatch(finding: Finding)
    | NoException(finding: Finding)
    | Expired(finding: Finding)

  // The index holds exactly the keys of the well-formed exceptions so far, each with the first one's data.
  ghost predicate Indexes(index: map<Key, Excuse>, exceptions: seq<Entry>, lib: Library, n: nat)
    requires n <= |exceptions|
  {
    && (forall i :: 0 <= i < n && WellFormed(exceptions[i], lib) ==> KeyOfException(exceptions[i], lib) in index)
    && forall key :: key in index ==> IsFirst(key, index[key], exceptions, lib, n)
  }

  ghost predicate IsFirst(key: Key, excuse: Excuse, exceptions: seq<Entry>, lib: Library, n: nat)
    requires n <= |exceptions|
  {
    exists i :: && 0 <= i < n && WellFormed(exceptions[i], lib) && KeyOfException(exceptions[i], lib) == key
                && ExcuseOf(exceptions[i], lib) == Some(excuse)
                && forall j :: 0 <= j < i && WellFormed(exceptions[j], lib) ==>
                  KeyOfException(exceptions[j], lib) != key
  }

  // One round of the first loop.
  method AddException(index: map<Key, Excuse>, e: Entry, lib: Library)
    returns (index': map<Key, Excuse>, problem: Option<Problem>)
    ensures problem.None? <==> WellFormed(e, lib) && KeyOfException(e, lib) !in index
    ensures index' == if problem.None? then index[KeyOfException(e, lib) := ExcuseOf(e, lib).value] else index
  {
    index' := index;
    if !HasRequiredFields(e) { return index, Some(FieldsMissing(e)); }
    var severity := NormalizeSeverity(Str(FieldOf(e, "severity")), lib).value;
    var key := KeyOfException(e, lib);
    var date := lib.parseDate(FieldOf(e, "expires_on"));
    if date.None? { return index, Some(BadDate(e)); }
    if key.0 == "" || key.1 == "" { return index, Some(BlankKey(e)); }
    if key in index { return index, Some(Duplicate(e)); }
    return index[key := Excuse(severity, date.value)], None;
  }

  // The first loop: no problem is recorded exactly if all exceptions are sound.
  method BuildIndex(exceptions: seq<Entry>, lib: Library) returns (index: map<Key, Excuse>, problems: seq<Problem>)
    ensures Indexes(index, exceptions, lib, |exceptions|)
    ensures problems == [] <==> Sound(exceptions, lib, |exceptions|)
  {
    index, problems := map[], [];
    for i := 0 to |exceptions|
      invariant Indexes(index, exceptions, lib, i)
      invariant problems == [] <==> Sound(exceptions, lib, i)
    {
      ghost var before := index;
      var problem;
      index, problem := AddException(index, exceptions[i], lib);
      StillIndexes(before, index, exceptions, lib, i);
      IndexHoldsTaken(before, exceptions, lib, i, KeyOfException(exceptions[i], lib));
      SoundStep(exceptions, lib, i);
      if problem.Some? { problems := problems + [problem.value]; }
    }
  }

  lemma StillIndexes(index: map<Key, Excuse>, index': map<Key, Excuse>, exceptions: seq<Entry>, lib: Library, i: nat)
    requires i < |exceptions| && Indexes(index, exceptions, lib, i)
    requires var e := exceptions[i];
      index' == if WellFormed(e, lib) && KeyOfException(e, lib) !in index
                then index[KeyOfException(e, lib) := ExcuseOf(e, lib).value] else index
    ensures Indexes(index', exceptions, lib, i + 1)
  {
    forall key | key in index' ensures IsFirst(key, index'[key], exceptions, lib, i + 1) {
      if key in index {
        assert IsFirst(key, index[key], exceptions, lib, i);
        var j :| && 0 <= j < i && WellFormed(exceptions[j], lib) && KeyOfException(exceptions[j], lib) == key
                 && ExcuseOf(exceptions[j], lib) == Some(index[key])
                 && forall k :: 0 <= k < j && WellFormed(exceptions[k], lib) ==>
                   KeyOfException(exceptions[k], lib) != key;
      } else {
        assert KeyOfException(exceptions[i], lib) == key;
      }
    }
  }

  // An earlier well-formed exception has the key.
  ghost predicate Taken(exceptions: seq<Entry>, lib: Library, n: nat, key: Key)
    requires n <= |exceptions|
  {
    exists j :: 0 <= j < n && WellFormed(exceptions[j], lib) && KeyOfException(exceptions[j], lib) == key
  }

  lemma IndexHoldsTaken(index: map<Key, Excuse>, exceptions: seq<Entry>, lib: Library, n: nat, key: Key)
    requires n <= |exceptions| && Indexes(index, exceptions, lib, n)
    ensures key in index <==> Taken(exceptions, lib, n, key)
  {
    if key in index {
      assert IsFirst(key, index[key], exceptions, lib, n);
    }
  }

  lemma SoundStep(exceptions: seq<Entry>, lib: Library, i: nat)
    requires i < |exceptions|
    ensures Sound(exceptions, lib, i + 1) <==>
      Sound(exceptions, lib, i) && WellFormed(exceptions[i], lib)
        && !Taken(exceptions, lib, i, KeyOfException(exceptions[i], lib))
  {}

  // ---- Findings ----

  function SeverityOf(f: Finding, lib: Library): string {
    var severity := NormalizeSeverity(f.severity, lib);
    if severity.Some? then severity.value else ""
  }

  // A high or critical finding with a package name.
  predicate NamedHigh(f: Finding, lib: Library) {
    SeverityOf(f, lib) in {"high", "critical"} && Truthy(f.name)
  }

  predicate Identified(f: Finding, lib: Library) { NormalizeAdvisory(f.advisory, lib) != "" }

  function KeyOf(f: Finding, lib: Library): Key {
    (NormalizePackage(f.name, lib), NormalizeAdvisory(f.advisory, lib))
  }

  // The scan compares the finding with the index.
  predicate Compared(f: Finding, lib: Library) { NamedHigh(f, lib) && Identified(f, lib) }

  // Its severity, or a blank one, and a date not yet passed.
  predicate Fits(index: map<Key, Excuse>, f: Finding, lib: Library) {
    var key := KeyOf(f, lib);
    && key in index && index[key].severity in {"", SeverityOf(f, lib)} && index[key].expires >= lib.today
  }

  // The keys the scan has met in the first n findings.
  function SeenKeys(findings: seq<Finding>, lib: Library, n: nat): set<Key>
    requires n <= |findings|
  {
    set k | 0 <= k < n && Compared(findings[k], lib) :: KeyOf(findings[k], lib)
  }

  // No problem among the first n findings when each key is compared once.
  ghost predicate OnceClean(index: map<Key, Excuse>, findings: seq<Finding>, lib: Library, n: nat)
    requires n <= |findings|
  {
    forall j :: 0 <= j < n && NamedHigh(findings[j], lib) ==>
      Identified(findings[j], lib) && (KeyOf(findings[j], lib) in SeenKeys(findings, lib, j)
                                       || Fits(index, findings[j], lib))
  }

  // No problem at all.
  ghost predicate PlainClean(index: map<Key, Excuse>, findings: seq<Finding>, lib: Library) {
    forall j :: 0 <= j < |findings| && NamedHigh(findings[j], lib) ==>
      Identified(findings[j], lib) && Fits(index, findings[j], lib)
  }

  // A severity that is true but no string.
  predicate Mistyped(f: Finding, lib: Library) { NormalizeSeverity(f.severity, lib).None? }

  ghost predicate SomeMistyped(findings: seq<Finding>, lib: Library) {
    exists i :: 0 <= i < |findings| && Mistyped(findings[i], lib)
  }

  // One round of the second loop, for a severity that is a string: the key it adds to the set, and the problems it
  // records.
  method Compare(index: map<Key, Excuse>, seen: set<Key>, f: Finding, sev: string, lib: Library)
    returns (seen': set<Key>, problems: seq<Problem>)
    requires NormalizeSeverity(f.severity, lib) == Some(sev)
    ensures seen' == if Compared(f, lib) then seen + {KeyOf(f, lib)} else seen
    ensures problems == [] <==>
      (NamedHigh(f, lib) ==> Identified(f, lib) && (KeyOf(f, lib) in seen || Fits(index, f, lib)))
  {
    seen', problems := seen, [];
    if sev !in {"high", "critical"} || !Truthy(f.name) { return; }
    var advisory := NormalizeAdvisory(f.advisory, lib);
    if advisory == "" { return seen, [NoAdvisoryId(f)]; }
    var key := (NormalizePackage(f.name, lib), advisory);
    if key in seen {
      assert seen + {key} == seen;
      return;
    }
    seen' := seen + {key};
    if key !in index { return seen', [NoException(f)]; }
    if index[key].severity != "" && index[key].severity != sev { problems := problems + [SeverityMismatch(f)]; }
    if index[key].expires < lib.today { problems := problems + [Expired(f)]; }
  }

  // The state of the second loop after n findings.
  ghost predicate Scanned(index: map<Key, Excuse>, findings: seq<Finding>, lib: Library, n: nat, seen: set<Key>,
                          clean: bool)
    requires n <= |findings|
  {
    && seen == SeenKeys(findings, lib, n)
    && (forall k :: 0 <= k < n ==> !Mistyped(findings[k], lib))
    && (clean <==> OnceClean(index, findings, lib, n))
  }

  lemma ScanStep(index: map<Key, Excuse>, findings: seq<Finding>, lib: Library, n: nat, seen: set<Key>, clean: bool,
                 seen': set<Key>, clean': bool)
    requires n < |findings| && Scanned(index, findings, lib, n, seen, clean) && !Mistyped(findings[n], lib)
    requires var f := findings[n];
      && seen' == (if Compared(f, lib) then seen + {KeyOf(f, lib)} else seen)
      && (clean' <==> clean && (NamedHigh(f, lib) ==>
                                Identified(f, lib) && (KeyOf(f, lib) in seen || Fits(index, f, lib))))
    ensures Scanned(index, findings, lib, n + 1, seen', clean')
  {
    SeenStep(findings, lib, n);
    CleanStep(index, findings, lib, n);
  }

  // The second loop. None is the exception a mistyped severity raises.
  method Scan(index: map<Key, Excuse>, findings: seq<Finding>, lib: Library) returns (r: Option<seq<Problem>>)
    ensures r.None? <==> SomeMistyped(findings, lib)
    ensures r.Some? ==> (r.value == [] <==> OnceClean(index, findings, lib, |findings|))
  {
    var seen: set<Key>, problems: seq<Problem> := {}, [];
    for i := 0 to |findings|
      invariant Scanned(index, findings, lib, i, seen, problems == [])
    {
      var sev := NormalizeSeverity(findings[i].severity, lib);
      if sev.None? {
        assert Mistyped(findings[i], lib);
        return None;
      }
      var seen', more := Compare(index, seen, findings[i], sev.value, lib);
      ScanStep(index, findings, lib, i, seen, problems == [], seen', problems + more == []);
      seen, problems := seen', problems + more;
    }
    return Some(problems);
  }

  lemma CleanStep(index: map<Key, Excuse>, findings: seq<Finding>, lib: Library, i: nat)
    requires i < |findings|
    ensures OnceClean(index, findings, lib, i + 1) <==>
      && OnceClean(index, findings, lib, i)
      && (NamedHigh(findings[i], lib) ==>
            Identified(findings[i], lib) && (KeyOf(findings[i], lib) in SeenKeys(findings, lib, i)
                                             || Fits(index, findings[i], lib)))
  {}

  lemma SeenStep(findings: seq<Finding>, lib: Library, i: nat)
    requires i < |findings|
    ensures SeenKeys(findings, lib, i + 1) ==
      if Compared(findings[i], lib) then SeenKeys(findings, lib, i) + {KeyOf(findings[i], lib)}
      else SeenKeys(findings, lib, i)
  {}

  // ---- The index says what the list says ----

  // The exception covers the finding: same key, its severity or a blank one, and a date not yet passed.
  ghost predicate Excuses(e: Entry, f: Finding, lib: Library) {
    && WellFormed(e, lib) && KeyOfException(e, lib) == KeyOf(f, lib)
    && ExcuseOf(e, lib).value.severity in {"", SeverityOf(f, lib)} && ExcuseOf(e, lib).value.expires >= lib.today
  }

  ghost predicate Excused(exceptions: seq<Entry>, f: Finding, lib: Library) {
    exists i :: 0 <= i < |exceptions| && Excuses(exceptions[i], f, lib)
  }

  lemma FitsMeansExcused(index: map<Key, Excuse>, exceptions: seq<Entry>, f: Finding, lib: Library)
    requires Indexes(index, exceptions, lib, |exceptions|) && Sound(exceptions, lib, |exceptions|)
    ensures Fits(index, f, lib) <==> Excused(exceptions, f, lib)
  {
    var key := KeyOf(f, lib);
    IndexHoldsTaken(index, exceptions, lib, |exceptions|, key);
    if key in index {
      var i := IndexedBy(index, exceptions, lib, key);
      if Excused(exceptions, f, lib) {
        var j :| 0 <= j < |exceptions| && Excuses(exceptions[j], f, lib);
        assert !(i < j) && !(j < i);
      }
      assert Fits(index, f, lib) ==> Excuses(exceptions[i], f, lib);
    }
  }

  lemma IndexedBy(index: map<Key, Excuse>, exceptions: seq<Entry>, lib: Library, key: Key) returns (i: nat)
    requires Indexes(index, exceptions, lib, |exceptions|) && key in index
    ensures i < |exceptions| && WellFormed(exceptions[i], lib) && KeyOfException(exceptions[i], lib) == key
    ensures ExcuseOf(exceptions[i], lib) == Some(index[key])
  {
    assert IsFirst(key, index[key], exceptions, lib, |exceptions|);
    i :| && 0 <= i < |exceptions| && WellFormed(exceptions[i], lib) && KeyOfException(exceptions[i], lib) == key
         && ExcuseOf(exceptions[i], lib) == Some(index[key]);
  }

  // ---- Once per key against every finding ----

  // Findings compared under one key agree on severity.
  ghost predicate Agree(findings: seq<Finding>, lib: Library) {
    forall i, j :: 0 <= i < j < |findings| && Compared(findings[i], lib) && Compared(findings[j], lib)
                   && KeyOf(findings[i], lib) == KeyOf(findings[j], lib)
                   ==> SeverityOf(findings[i], lib) == SeverityOf(findings[j], lib)
  }

  ghost predicate SomeUnidentified(findings: seq<Finding>, lib: Library) {
    exists j :: 0 <= j < |findings| && NamedHigh(findings[j], lib) && !Identified(findings[j], lib)
  }

  predicate ComparedAs(f: Finding, key: Key, lib: Library) { Compared(f, lib) && KeyOf(f, lib) == key }

  // The first finding at or after n that is compared under the key, or the end.
  function FirstWithKey(findings: seq<Finding>, key: Key, lib: Library, n: nat := 0): (k: nat)
    requires n <= |findings|
    ensures n <= k <= |findings| && (k < |findings| ==> ComparedAs(findings[k], key, lib))
    ensures forall m :: n <= m < k ==> !ComparedAs(findings[m], key, lib)
    decreases |findings| - n
  {
    if n == |findings| || ComparedAs(findings[n], key, lib) then n else FirstWithKey(findings, key, lib, n + 1)
  }

  lemma SeenMeansEarlier(findings: seq<Finding>, key: Key, lib: Library, j: nat)
    requires j <= |findings|
    ensures key in SeenKeys(findings, lib, j) <==> FirstWithKey(findings, key, lib) < j
  {
    var k := FirstWithKey(findings, key, lib);
    if key in SeenKeys(findings, lib, j) {
      var m :| 0 <= m < j && Compared(findings[m], lib) && KeyOf(findings[m], lib) == key;
      assert ComparedAs(findings[m], key, lib);
    }
    assert k < j ==> ComparedAs(findings[k], key, lib);
  }

  lemma AgreementSuffices(index: map<Key, Excuse>, findings: seq<Finding>, lib: Library)
    requires Agree(findings, lib)
    ensures OnceClean(index, findings, lib, |findings|) <==> PlainClean(index, findings, lib)
  {
    if OnceClean(index, findings, lib, |findings|) {
      forall j | 0 <= j < |findings| && NamedHigh(findings[j], lib)
        ensures Identified(findings[j], lib) && Fits(index, findings[j], lib)
      {
        FirstFits(index, findings, lib, j);
      }
    }
  }

  lemma FirstFits(index: map<Key, Excuse>, findings: seq<Finding>, lib: Library, j: nat)
    requires Agree(findings, lib) && OnceClean(index, findings, lib, |findings|)
    requires j < |findings| && NamedHigh(findings[j], lib)
    ensures Fits(index, findings[j], lib)
  {
    var key := KeyOf(findings[j], lib);
    var k := FirstWithKey(findings, key, lib);
    assert ComparedAs(findings[j], key, lib);
    SeenMeansEarlier(findings, key, lib, k);
    assert Fits(index, findings[k], lib);
    assert k < j ==> SeverityOf(findings[k], lib) == SeverityOf(findings[j], lib);
  }

  // An index that accepts every first comparison, and no other severity than the first's under any key.
  function FirstSeverities(findings: seq<Finding>, lib: Library): map<Key, Excuse> {
    map key | key in SeenKeys(findings, lib, |findings|) :: Excuse(FirstSeverity(findings, key, lib), lib.today)
  }

  function FirstSeverity(findings: seq<Finding>, key: Key, lib: Library): string {
    var k := FirstWithKey(findings, key, lib);
    if k < |findings| then SeverityOf(findings[k], lib) else ""
  }

  lemma FirstsFit(findings: seq<Finding>, lib: Library, j: nat)
    requires j < |findings| && Compared(findings[j], lib)
    ensures var key := KeyOf(findings[j], lib);
      Fits(FirstSeverities(findings, lib), findings[j], lib)
      <==> FirstSeverity(findings, key, lib) in {"", SeverityOf(findings[j], lib)}
  {}

  // A finding that is not seen before is the first under its key.
  lemma FirstIsItself(findings: seq<Finding>, lib: Library, j: nat)
    requires j < |findings| && Compared(findings[j], lib)
    requires FirstWithKey(findings, KeyOf(findings[j], lib), lib) >= j
    ensures FirstSeverity(findings, KeyOf(findings[j], lib), lib) == SeverityOf(findings[j], lib)
  {
    var key := KeyOf(findings[j], lib);
    assert FirstWithKey(findings, key, lib) == j by {
      assert ComparedAs(findings[j], key, lib);
    }
  }

  lemma FirstsAreClean(findings: seq<Finding>, lib: Library, j: nat)
    requires j < |findings| && Compared(findings[j], lib)
    ensures KeyOf(findings[j], lib) in SeenKeys(findings, lib, j)
            || Fits(FirstSeverities(findings, lib), findings[j], lib)
  {
    SeenMeansEarlier(findings, KeyOf(findings[j], lib), lib, j);
    if FirstWithKey(findings, KeyOf(findings[j], lib), lib) >= j {
      FirstIsItself(findings, lib, j);
      FirstsFit(findings, lib, j);
    }
  }

  lemma FirstsPass(findings: seq<Finding>, lib: Library)
    requires !SomeUnidentified(findings, lib)
    ensures OnceClean(FirstSeverities(findings, lib), findings, lib, |findings|)
  {
    forall j | 0 <= j < |findings| && NamedHigh(findings[j], lib)
      ensures KeyOf(findings[j], lib) in SeenKeys(findings, lib, j)
              || Fits(FirstSeverities(findings, lib), findings[j], lib)
    {
      FirstsAreClean(findings, lib, j);
    }
  }

  lemma SeverityNotBlank(f: Finding, lib: Library)
    requires NamedHigh(f, lib)
    ensures SeverityOf(f, lib) != ""
  {}

  lemma OneMisfits(findings: seq<Finding>, lib: Library, i: nat, j: nat)
    requires i < j < |findings| && Compared(findings[i], lib) && Compared(findings[j], lib)
    requires KeyOf(findings[i], lib) == KeyOf(findings[j], lib)
      && SeverityOf(findings[i], lib) != SeverityOf(findings[j], lib)
    ensures !PlainClean(FirstSeverities(findings, lib), findings, lib)
  {
    var key := KeyOf(findings[i], lib);
    FirstsFit(findings, lib, i);
    FirstsFit(findings, lib, j);
    assert ComparedAs(findings[i], key, lib);
    SeverityNotBlank(findings[FirstWithKey(findings, key, lib)], lib);
  }

  lemma SomeDisagree(findings: seq<Finding>, lib: Library)
    requires !Agree(findings, lib)
    ensures !PlainClean(FirstSeverities(findings, lib), findings, lib)
  {
    var i, j :| && 0 <= i < j < |findings| && Compared(findings[i], lib) && Compared(findings[j], lib)
                && KeyOf(findings[i], lib) == KeyOf(findings[j], lib)
                && SeverityOf(findings[i], lib) != SeverityOf(findings[j], lib);
    OneMisfits(findings, lib, i, j);
  }

  lemma DisagreementShows(findings: seq<Finding>, lib: Library)
    requires !Agree(findings, lib) && !SomeUnidentified(findings, lib)
    ensures OnceClean(FirstSeverities(findings, lib), findings, lib, |findings|)
    ensures !PlainClean(FirstSeverities(findings, lib), findings, lib)
  {
    FirstsPass(findings, lib);
    SomeDisagree(findings, lib);
  }

  // Comparing once per key gives the verdict of the plain check for every index, exactly if the findings under each key
  // agree on severity, or some finding has no id, in which case both fail.
  lemma OnceIsPlainExactly(findings: seq<Finding>, lib: Library)
    ensures (forall index :: OnceClean(index, findings, lib, |findings|) <==> PlainClean(index, findings, lib))
      <==> Agree(findings, lib) || SomeUnidentified(findings, lib)
  {
    if SomeUnidentified(findings, lib) {
      var j :| 0 <= j < |findings| && NamedHigh(findings[j], lib) && !Identified(findings[j], lib);
      forall index ensures OnceClean(index, findings, lib, |findings|) <==> PlainClean(index, findings, lib) {}
    } else if Agree(findings, lib) {
      forall index ensures OnceClean(index, findings, lib, |findings|) <==> PlainClean(index, findings, lib) {
        AgreementSuffices(index, findings, lib);
      }
    } else {
      DisagreementShows(findings, lib);
    }
  }

  // The plain check, and with agreement the scan, depends only on which findings there are, not on their order or
  // number.
  lemma OrderDoesNotMatter(index: map<Key, Excuse>, a: seq<Finding>, b: seq<Finding>, lib: Library)
    requires Agree(a, lib) && Agree(b, lib) && forall f :: f in a <==> f in b
    ensures OnceClean(index, a, lib, |a|) <==> OnceClean(index, b, lib, |b|)
  {
    AgreementSuffices(index, a, lib);
    AgreementSuffices(index, b, lib);
    forall j | 0 <= j < |a| ensures a[j] in b {
      assert a[j] in a;
    }
    forall j | 0 <= j < |b| ensures b[j] in a {
      assert b[j] in b;
    }
  }

  // Without agreement the verdict can change with the order of two findings: an exception for "high" hides a later
  // "critical" finding under the same key, but not an earlier one.
  lemma OrderMattersWithoutAgreement(lib: Library)
    requires lib.lower("high") == "high" && lib.lower("critical") == "critical" && lib.lower("a") != ""
    ensures
      var high, critical := Finding(Str("p"), Str("high"), Str("a")), Finding(Str("p"), Str("critical"), Str("a"));
      var index := map[KeyOf(high, lib) := Excuse("high", lib.today)];
      && OnceClean(index, [high, critical], lib, 2)
      && !OnceClean(index, [critical, high], lib, 2)
      && !PlainClean(index, [high, critical], lib)
  {
    var high, critical := Finding(Str("p"), Str("high"), Str("a")), Finding(Str("p"), Str("critical"), Str("a"));
    var index := map[KeyOf(high, lib) := Excuse("high", lib.today)];
    StripTrimmed("high");
    StripTrimmed("critical");
    StripTrimmed("a");
    assert SeverityOf(high, lib) == "high" && SeverityOf(critical, lib) == "critical";
    assert Compared(high, lib) && Compared(critical, lib) && KeyOf(high, lib) == KeyOf(critical, lib);
    assert "high" != "critical";
    assert Fits(index, high, lib) && !Fits(index, critical, lib);
    var a, b := [high, critical], [critical, high];
    assert a[0] == high && KeyOf(a[0], lib) in SeenKeys(a, lib, 1);
    assert a[1] == critical && !Fits(index, a[1], lib);
    assert b[0] == critical && !Fits(index, b[0], lib) && SeenKeys(b, lib, 0) == {};
  }

  // ---- The verdict ----

  datatype Outcome = Exit(code: int) | Raises

  // The findings are excused by the list when each key is compared once.
  ghost predicate ExcusedOnce(exceptions: seq<Entry>, findings: seq<Finding>, lib: Library) {
    forall j :: 0 <= j < |findings| && NamedHigh(findings[j], lib) ==>
      && Identified(findings[j], lib)
      && (KeyOf(findings[j], lib) in SeenKeys(findings, lib, j) || Excused(exceptions, findings[j], lib))
  }

  // Every named high or critical finding has an id and an unexpired exception of its own severity, or a blank one.
  ghost predicate AllExcused(exceptions: seq<Entry>, findings: seq<Finding>, lib: Library) {
    forall j :: 0 <= j < |findings| && NamedHigh(findings[j], lib) ==>
      Identified(findings[j], lib) && Excused(exceptions, findings[j], lib)
  }

  lemma CleanMeansExcused(index: map<Key, Excuse>, exceptions: seq<Entry>, findings: seq<Finding>, lib: Library)
    requires Indexes(index, exceptions, lib, |exceptions|) && Sound(exceptions, lib, |exceptions|)
    ensures OnceClean(index, findings, lib, |findings|) <==> ExcusedOnce(exceptions, findings, lib)
    ensures PlainClean(index, findings, lib) <==> AllExcused(exceptions, findings, lib)
  {
    forall j | 0 <= j < |findings| ensures Fits(index, findings[j], lib) <==> Excused(exceptions, findings[j], lib) {
      FitsMeansExcused(index, exceptions, findings[j], lib);
    }
  }

  // The two loops and the exit code.
  method Judge(exceptions: seq<Entry>, findings: seq<Finding>, lib: Library) returns (outcome: Outcome)
    ensures outcome == Raises <==> SomeMistyped(findings, lib)
    ensures outcome.Exit? ==> outcome.code in {0, 1}
    ensures outcome.Exit? ==>
      (outcome.code == 0 <==> Sound(exceptions, lib, |exceptions|) && ExcusedOnce(exceptions, findings, lib))
    ensures outcome.Exit? && Agree(findings, lib) ==>
      (outcome.code == 0 <==> Sound(exceptions, lib, |exceptions|) && AllExcused(exceptions, findings, lib))
  {
    var index, problems := BuildIndex(exceptions, lib);
    var more := Scan(index, findings, lib);
    if more.None? { return Raises; }
    if problems == [] {
      CleanMeansExcused(index, exceptions, findings, lib);
      if Agree(findings, lib) { AgreementSuffices(index, findings, lib); }
    }
    return Exit(if problems + more.value == [] then 0 else 1);
  }

  // main, in terms of the index keys.
  method RunChecks(report: Json, lines: seq<string>, lib: Library) returns (outcome: Outcome)
    ensures outcome == Raises <==>
      Parse(lines).None? || Findings(report, lib).None? || SomeMistyped(Findings(report, lib).value, lib)
    ensures outcome == Exit(0) <==>
      && Parse(lines).Some? && Findings(report, lib).Some? && !SomeMistyped(Findings(report, lib).value, lib)
      && Sound(Parse(lines).value, lib, |Parse(lines).value|)
      && ExcusedOnce(Parse(lines).value, Findings(report, lib).value, lib)
    ensures outcome.Exit? && Agree(Findings(report, lib).value, lib) ==>
      (outcome == Exit(0) <==> Sound(Parse(lines).value, lib, |Parse(lines).value|)
                               && AllExcused(Parse(lines).value, Findings(report, lib).value, lib))
    ensures outcome.Exit? ==> outcome.code in {0, 1}
  {
    var exceptions := ParseExceptions(lines);
    if exceptions.None? { return Raises; }
    var findings := IterVulns(report, lib);
    if findings.None? { return Raises; }
    outcome := Judge(exceptions.value, findings.value, lib);
  }
  // ---- The same, written out ----

  // An exception has its five fields, a date that can be read, and a package and an advisory that are not blank.
  predicate Proper(e: Entry, lib: Library) {
    && "package" in e && "advisory" in e && "severity" in e && "mitigation" in e && "expires_on" in e
    && e["package"] != "" && e["advisory"] != "" && e["severity"] != "" && e["mitigation"] != ""
    && e["expires_on"] != "" && lib.parseDate(e["expires_on"]).Some?
    && Strip(e["package"]) != "" && Strip(e["advisory"]) != "" && lib.lower(Strip(e["advisory"])) != ""
  }

  // Two of them are about the same advisory of the same package.
  predicate SameSubject(e: Entry, e': Entry, lib: Library)
    requires Proper(e, lib) && Proper(e', lib)
  {
    && Strip(e["package"]) == Strip(e'["package"])
    && lib.lower(Strip(e["advisory"])) == lib.lower(Strip(e'["advisory"]))
  }

  // The list is in order: every exception is proper, and no two are about the same.
  ghost predicate ProperList(exceptions: seq<Entry>, lib: Library) {
    && (forall i :: 0 <= i < |exceptions| ==> Proper(exceptions[i], lib))
    && forall i, j :: 0 <= i < j < |exceptions| ==> !SameSubject(exceptions[i], exceptions[j], lib)
  }

  // The finding has a name, and its severity is high or critical.
  predicate High(f: Finding, lib: Library) {
    && Truthy(f.name) && f.severity.Str? && Strip(f.severity.str) != ""
    && lib.lower(Strip(f.severity.str)) in {"high", "critical"}
  }

  predicate HasId(f: Finding, lib: Library) {
    && f.advisory != Json.Null && Strip(StrOf(f.advisory, lib)) != ""
    && lib.lower(Strip(StrOf(f.advisory, lib))) != ""
  }

  // The exception is about the finding, and its date has not passed.
  predicate Covers(e: Entry, f: Finding, lib: Library) {
    && Proper(e, lib) && Strip(e["package"]) == Strip(StrOf(f.name, lib))
    && lib.lower(Strip(e["advisory"])) == lib.lower(Strip(StrOf(f.advisory, lib)))
    && lib.parseDate(e["expires_on"]).value >= lib.today
  }

  // It has the finding's severity, or a blank one.
  predicate SeverityFits(e: Entry, f: Finding, lib: Library)
    requires Proper(e, lib) && High(f, lib)
  {
    var severity := Strip(e["severity"]);
    severity == "" || lib.lower(severity) == "" || lib.lower(severity) == lib.lower(Strip(f.severity.str))
  }

  lemma ProperMeans(e: Entry, lib: Library)
    ensures WellFormed(e, lib) <==> Proper(e, lib)
    ensures Proper(e, lib) ==>
      && KeyOfException(e, lib) == (Strip(e["package"]), lib.lower(Strip(e["advisory"])))
      && ExcuseOf(e, lib) == Some(Excuse(Lower(Strip(e["severity"]), lib), lib.parseDate(e["expires_on"]).value))
  {}

  lemma ProperListMeans(exceptions: seq<Entry>, lib: Library)
    ensures Sound(exceptions, lib, |exceptions|) <==> ProperList(exceptions, lib)
  {
    forall i | 0 <= i < |exceptions|
      ensures WellFormed(exceptions[i], lib) <==> Proper(exceptions[i], lib)
      ensures Proper(exceptions[i], lib) ==>
        KeyOfException(exceptions[i], lib) ==
        (Strip(exceptions[i]["package"]), lib.lower(Strip(exceptions[i]["advisory"])))
    {
      ProperMeans(exceptions[i], lib);
    }
  }

  lemma HighMeans(f: Finding, lib: Library)
    ensures NamedHigh(f, lib) <==> High(f, lib)
    ensures High(f, lib) ==> SeverityOf(f, lib) == lib.lower(Strip(f.severity.str))
    ensures Identified(f, lib) <==> HasId(f, lib)
    ensures High(f, lib) && HasId(f, lib) ==>
      KeyOf(f, lib) == (Strip(StrOf(f.name, lib)), lib.lower(Strip(StrOf(f.advisory, lib))))
  {}

  lemma ExcusesMean(e: Entry, f: Finding, lib: Library)
    requires High(f, lib) && HasId(f, lib)
    ensures Excuses(e, f, lib) <==> Covers(e, f, lib) && SeverityFits(e, f, lib)
  {
    ProperMeans(e, lib);
    HighMeans(f, lib);
  }

  // Some exception of the list covers the finding, with its severity if that matters.
  ghost predicate Covered(exceptions: seq<Entry>, f: Finding, lib: Library) {
    exists e :: e in exceptions && Covers(e, f, lib)
  }

  ghost predicate CoveredFully(exceptions: seq<Entry>, f: Finding, lib: Library)
    requires High(f, lib)
  {
    exists e :: e in exceptions && Covers(e, f, lib) && SeverityFits(e, f, lib)
  }

  lemma ExcusedMeans(exceptions: seq<Entry>, f: Finding, lib: Library)
    requires High(f, lib) && HasId(f, lib)
    ensures Excused(exceptions, f, lib) <==> CoveredFully(exceptions, f, lib)
  {
    if Excused(exceptions, f, lib) {
      var i :| 0 <= i < |exceptions| && Excuses(exceptions[i], f, lib);
      ExcusesMean(exceptions[i], f, lib);
      assert exceptions[i] in exceptions;
    }
    if CoveredFully(exceptions, f, lib) {
      var e :| e in exceptions && Covers(e, f, lib) && SeverityFits(e, f, lib);
      var i :| 0 <= i < |exceptions| && exceptions[i] == e;
      ExcusesMean(e, f, lib);
    }
  }

  // Whoever excuses the first finding under a key covers them all.
  lemma CoveredByKey(exceptions: seq<Entry>, findings: seq<Finding>, lib: Library, j: nat)
    requires ExcusedOnce(exceptions, findings, lib) && j < |findings| && High(findings[j], lib)
    ensures HasId(findings[j], lib) && Covered(exceptions, findings[j], lib)
  {
    var f := findings[j];
    HighMeans(f, lib);
    var key := KeyOf(f, lib);
    var k := FirstWithKey(findings, key, lib);
    assert ComparedAs(f, key, lib);
    SeenMeansEarlier(findings, key, lib, k);
    HighMeans(findings[k], lib);
    assert Excused(exceptions, findings[k], lib);
    ExcusedMeans(exceptions, findings[k], lib);
    var e :| e in exceptions && Covers(e, findings[k], lib) && SeverityFits(e, findings[k], lib);
    assert Covers(e, f, lib);
  }

  // Two findings are about the same advisory of the same package.
  predicate SameAdvisory(f: Finding, g: Finding, lib: Library) {
    && Strip(StrOf(f.name, lib)) == Strip(StrOf(g.name, lib))
    && lib.lower(Strip(StrOf(f.advisory, lib))) == lib.lower(Strip(StrOf(g.advisory, lib)))
  }

  // Each high finding has an id, and unless an earlier high finding is about the same, an exception covers it fully.
  ghost predicate CoveredOnce(exceptions: seq<Entry>, findings: seq<Finding>, lib: Library) {
    forall j :: 0 <= j < |findings| && High(findings[j], lib) ==>
      && HasId(findings[j], lib)
      && (EarlierSame(findings, j, lib) || CoveredFully(exceptions, findings[j], lib))
  }

  ghost predicate EarlierSame(findings: seq<Finding>, j: nat, lib: Library)
    requires j < |findings|
  {
    exists k :: 0 <= k < j && High(findings[k], lib) && HasId(findings[k], lib)
      && SameAdvisory(findings[k], findings[j], lib)
  }

  lemma EarlierSameMeans(findings: seq<Finding>, j: nat, lib: Library)
    requires j < |findings| && High(findings[j], lib) && HasId(findings[j], lib)
    ensures KeyOf(findings[j], lib) in SeenKeys(findings, lib, j) <==> EarlierSame(findings, j, lib)
  {
    HighMeans(findings[j], lib);
    if KeyOf(findings[j], lib) in SeenKeys(findings, lib, j) {
      var k :| 0 <= k < j && Compared(findings[k], lib) && KeyOf(findings[k], lib) == KeyOf(findings[j], lib);
      HighMeans(findings[k], lib);
      assert SameAdvisory(findings[k], findings[j], lib);
    }
    if EarlierSame(findings, j, lib) {
      var k :| 0 <= k < j && High(findings[k], lib) && HasId(findings[k], lib)
        && SameAdvisory(findings[k], findings[j], lib);
      HighMeans(findings[k], lib);
    }
  }

  lemma ExcusedOnceMeans(exceptions: seq<Entry>, findings: seq<Finding>, lib: Library)
    ensures ExcusedOnce(exceptions, findings, lib) <==> CoveredOnce(exceptions, findings, lib)
  {
    forall j | 0 <= j < |findings|
      ensures NamedHigh(findings[j], lib) <==> High(findings[j], lib)
      ensures Identified(findings[j], lib) <==> HasId(findings[j], lib)
      ensures High(findings[j], lib) && HasId(findings[j], lib) ==>
        && (KeyOf(findings[j], lib) in SeenKeys(findings, lib, j) <==> EarlierSame(findings, j, lib))
        && (Excused(exceptions, findings[j], lib) <==> CoveredFully(exceptions, findings[j], lib))
    {
      HighMeans(findings[j], lib);
      if High(findings[j], lib) && HasId(findings[j], lib) {
        EarlierSameMeans(findings, j, lib);
        ExcusedMeans(exceptions, findings[j], lib);
      }
    }
  }

  // Every high finding the report gives has an id and an exception that covers it.
  ghost predicate AllCovered(report: Json, exceptions: seq<Entry>, lib: Library) {
    forall f :: ReportGives(report, lib, f) && High(f, lib) ==> HasId(f, lib) && Covered(exceptions, f, lib)
  }

  // The same with its severity.
  ghost predicate AllCoveredFully(report: Json, exceptions: seq<Entry>, lib: Library) {
    forall f :: ReportGives(report, lib, f) && High(f, lib) ==> HasId(f, lib) && CoveredFully(exceptions, f, lib)
  }

  // High findings about the same advisory have the same severity.
  ghost predicate OneSeverity(report: Json, lib: Library) {
    forall f, g ::
      && ReportGives(report, lib, f) && ReportGives(report, lib, g)
      && High(f, lib) && High(g, lib) && HasId(f, lib) && HasId(g, lib) && SameAdvisory(f, g, lib) ==>
        lib.lower(Strip(f.severity.str)) == lib.lower(Strip(g.severity.str))
  }

  // Some finding has a severity that is true but no string.
  ghost predicate OddSeverity(report: Json, lib: Library) {
    exists f :: ReportGives(report, lib, f) && Truthy(f.severity) && !f.severity.Str?
  }

  lemma OddMeans(report: Json, lib: Library)
    requires Findings(report, lib).Some?
    ensures SomeMistyped(Findings(report, lib).value, lib) <==> OddSeverity(report, lib)
  {
    var findings := Findings(report, lib).value;
    FindingsMean(report, lib);
    if SomeMistyped(findings, lib) {
      var i :| 0 <= i < |findings| && Mistyped(findings[i], lib);
      assert findings[i] in findings;
    }
    if OddSeverity(report, lib) {
      var f :| ReportGives(report, lib, f) && Truthy(f.severity) && !f.severity.Str?;
      assert f in findings;
      var i :| 0 <= i < |findings| && findings[i] == f;
      assert Mistyped(findings[i], lib);
    }
  }

  lemma CleanIsCovered(report: Json, exceptions: seq<Entry>, lib: Library)
    requires Findings(report, lib).Some? && ExcusedOnce(exceptions, Findings(report, lib).value, lib)
    ensures AllCovered(report, exceptions, lib)
  {
    var findings := Findings(report, lib).value;
    FindingsMean(report, lib);
    forall f | ReportGives(report, lib, f) && High(f, lib) ensures HasId(f, lib) && Covered(exceptions, f, lib) {
      assert f in findings;
      var j :| 0 <= j < |findings| && findings[j] == f;
      CoveredByKey(exceptions, findings, lib, j);
    }
  }

  lemma OneSeverityAgrees(report: Json, lib: Library)
    requires Findings(report, lib).Some? && OneSeverity(report, lib)
    ensures Agree(Findings(report, lib).value, lib)
  {
    var findings := Findings(report, lib).value;
    FindingsMean(report, lib);
    forall i, j | 0 <= i < j < |findings| && Compared(findings[i], lib) && Compared(findings[j], lib)
      && KeyOf(findings[i], lib) == KeyOf(findings[j], lib)
      ensures SeverityOf(findings[i], lib) == SeverityOf(findings[j], lib)
    {
      HighMeans(findings[i], lib);
      HighMeans(findings[j], lib);
      assert findings[i] in findings && findings[j] in findings;
      assert SameAdvisory(findings[i], findings[j], lib);
    }
  }

  lemma AllExcusedMeans(report: Json, exceptions: seq<Entry>, lib: Library)
    requires Findings(report, lib).Some?
    ensures AllExcused(exceptions, Findings(report, lib).value, lib) <==> AllCoveredFully(report, exceptions, lib)
  {
    var findings := Findings(report, lib).value;
    FindingsMean(report, lib);
    if AllExcused(exceptions, findings, lib) {
      forall f | ReportGives(report, lib, f) && High(f, lib)
        ensures HasId(f, lib) && CoveredFully(exceptions, f, lib)
      {
        assert f in findings;
        var j :| 0 <= j < |findings| && findings[j] == f;
        HighMeans(findings[j], lib);
        ExcusedMeans(exceptions, f, lib);
      }
    }
    if AllCoveredFully(report, exceptions, lib) {
      forall j | 0 <= j < |findings| && NamedHigh(findings[j], lib)
        ensures Identified(findings[j], lib) && Excused(exceptions, findings[j], lib)
      {
        assert findings[j] in findings;
        HighMeans(findings[j], lib);
        ExcusedMeans(exceptions, findings[j], lib);
      }
    }
  }

  // ---- Case and surrounding whitespace ----

  // The text is this one, with whitespace around it.
  ghost predicate Padded(s: string, core: string) {
    Trimmed(core) && exists left, right :: AllSpace(left) && AllSpace(right) && s == left + core + right
  }

  // The same text up to the whitespace around it; and up to case as well.
  ghost predicate SameText(s: string, t: string) { exists core :: Padded(s, core) && Padded(t, core) }

  ghost predicate SameLowered(s: string, t: string, lib: Library) {
    exists a, b :: Padded(s, a) && Padded(t, b) && (a == "" <==> b == "") && lib.lower(a) == lib.lower(b)
  }

  // Findings that differ only in that: in the whitespace around the name, and in whitespace and case of the rest.
  ghost predicate FindingsAlike(f: Finding, g: Finding, lib: Library) {
    && (f.name == g.name || (f.name.Str? && g.name.Str? && SameText(f.name.str, g.name.str)
                             && (f.name.str == "" <==> g.name.str == "")))
    && (f.severity == g.severity
        || (f.severity.Str? && g.severity.Str? && SameLowered(f.severity.str, g.severity.str, lib)))
    && (f.advisory == g.advisory
        || (f.advisory.Str? && g.advisory.Str? && SameLowered(f.advisory.str, g.advisory.str, lib)))
  }

  const REQUIRED_FIELDS := {"package", "advisory", "severity", "mitigation", "expires_on"}

  ghost predicate EntriesAlike(e: Entry, e': Entry, lib: Library) {
    && (forall name :: name in REQUIRED_FIELDS ==>
      (name in e <==> name in e') && (name in e ==> (e[name] == "" <==> e'[name] == "")))
    && ("package" in e && "package" in e' ==> SameText(e["package"], e'["package"]))
    && ("advisory" in e && "advisory" in e' ==> SameLowered(e["advisory"], e'["advisory"], lib))
    && ("severity" in e && "severity" in e' ==> SameLowered(e["severity"], e'["severity"], lib))
    && ("expires_on" in e && "expires_on" in e' ==> e["expires_on"] == e'["expires_on"])
  }

  lemma PaddedMeans(s: string, core: string)
    requires Padded(s, core)
    ensures Strip(s) == core
  {
    var left, right :| AllSpace(left) && AllSpace(right) && s == left + core + right;
    StripOf(left, core, right);
  }

  lemma SameTextMeans(s: string, t: string)
    requires SameText(s, t)
    ensures Strip(s) == Strip(t)
  {
    var core :| Padded(s, core) && Padded(t, core);
    PaddedMeans(s, core);
    PaddedMeans(t, core);
  }

  lemma SameLoweredMeans(s: string, t: string, lib: Library)
    requires SameLowered(s, t, lib)
    ensures (Strip(s) == "" <==> Strip(t) == "") && lib.lower(Strip(s)) == lib.lower(Strip(t))
  {
    var a, b :| Padded(s, a) && Padded(t, b) && (a == "" <==> b == "") && lib.lower(a) == lib.lower(b);
    PaddedMeans(s, a);
    PaddedMeans(t, b);
  }

  lemma AlikeFindings(f: Finding, g: Finding, lib: Library)
    requires FindingsAlike(f, g, lib)
    ensures High(f, lib) <==> High(g, lib)
    ensures High(f, lib) ==> lib.lower(Strip(f.severity.str)) == lib.lower(Strip(g.severity.str))
    ensures HasId(f, lib) <==> HasId(g, lib)
    ensures Strip(StrOf(f.name, lib)) == Strip(StrOf(g.name, lib))
    ensures lib.lower(Strip(StrOf(f.advisory, lib))) == lib.lower(Strip(StrOf(g.advisory, lib)))
    ensures Mistyped(f, lib) <==> Mistyped(g, lib)
  {
    if f.name != g.name { SameTextMeans(f.name.str, g.name.str); }
    if f.severity != g.severity { SameLoweredMeans(f.severity.str, g.severity.str, lib); }
    if f.advisory != g.advisory { SameLoweredMeans(f.advisory.str, g.advisory.str, lib); }
  }

  lemma AlikeEntries(e: Entry, e': Entry, lib: Library)
    requires EntriesAlike(e, e', lib)
    ensures Proper(e, lib) <==> Proper(e', lib)
    ensures Proper(e, lib) ==>
      && Strip(e["package"]) == Strip(e'["package"])
      && lib.lower(Strip(e["advisory"])) == lib.lower(Strip(e'["advisory"]))
      && (Strip(e["severity"]) == "" <==> Strip(e'["severity"]) == "")
      && lib.lower(Strip(e["severity"])) == lib.lower(Strip(e'["severity"]))
      && e["expires_on"] == e'["expires_on"]
  {
    assert forall name :: name in REQUIRED_FIELDS <==>
      name == "package" || name == "advisory" || name == "severity" || name == "mitigation" || name == "expires_on";
    if "package" in e && "package" in e' { SameTextMeans(e["package"], e'["package"]); }
    if "advisory" in e && "advisory" in e' { SameLoweredMeans(e["advisory"], e'["advisory"], lib); }
    if "severity" in e && "severity" in e' { SameLoweredMeans(e["severity"], e'["severity"], lib); }
  }

  ghost predicate AllFindingsAlike(a: seq<Finding>, b: seq<Finding>, lib: Library) {
    |a| == |b| && forall i :: 0 <= i < |a| ==> FindingsAlike(a[i], b[i], lib)
  }

  ghost predicate AllEntriesAlike(a: seq<Entry>, b: seq<Entry>, lib: Library) {
    |a| == |b| && forall i :: 0 <= i < |a| ==> EntriesAlike(a[i], b[i], lib)
  }

  lemma AlikeLists(a: seq<Entry>, b: seq<Entry>, lib: Library)
    requires AllEntriesAlike(a, b, lib) && ProperList(a, lib)
    ensures ProperList(b, lib)
  {
    forall i | 0 <= i < |b|
      ensures Proper(b[i], lib) && Strip(a[i]["package"]) == Strip(b[i]["package"])
      ensures lib.lower(Strip(a[i]["advisory"])) == lib.lower(Strip(b[i]["advisory"]))
    {
      AlikeEntries(a[i], b[i], lib);
    }
    forall i, j | 0 <= i < j < |b| ensures !SameSubject(b[i], b[j], lib) {
      assert !SameSubject(a[i], a[j], lib);
    }
  }

  lemma AlikeCovered(a: seq<Entry>, b: seq<Entry>, f: Finding, g: Finding, lib: Library)
    requires AllEntriesAlike(a, b, lib) && FindingsAlike(f, g, lib) && High(f, lib) && CoveredFully(a, f, lib)
    ensures High(g, lib) && CoveredFully(b, g, lib)
  {
    AlikeFindings(f, g, lib);
    var e :| e in a && Covers(e, f, lib) && SeverityFits(e, f, lib);
    var i :| 0 <= i < |a| && a[i] == e;
    AlikeEntries(a[i], b[i], lib);
    assert b[i] in b && Covers(b[i], g, lib) && SeverityFits(b[i], g, lib);
  }

  lemma AlikeCoveredOnce(a: seq<Entry>, b: seq<Entry>, fs: seq<Finding>, gs: seq<Finding>, lib: Library)
    requires AllEntriesAlike(a, b, lib) && AllFindingsAlike(fs, gs, lib) && CoveredOnce(a, fs, lib)
    ensures CoveredOnce(b, gs, lib)
  {
    forall j | 0 <= j < |gs| && High(gs[j], lib)
      ensures HasId(gs[j], lib) && (EarlierSame(gs, j, lib) || CoveredFully(b, gs[j], lib))
    {
      AlikeFindings(fs[j], gs[j], lib);
      if EarlierSame(fs, j, lib) {
        var k :| 0 <= k < j && High(fs[k], lib) && HasId(fs[k], lib) && SameAdvisory(fs[k], fs[j], lib);
        AlikeFindings(fs[k], gs[k], lib);
        assert SameAdvisory(gs[k], gs[j], lib);
      } else {
        AlikeCovered(a, b, fs[j], gs[j], lib);
      }
    }
  }

  lemma AlikeIsSymmetric(a: seq<Entry>, b: seq<Entry>, fs: seq<Finding>, gs: seq<Finding>, lib: Library)
    requires AllEntriesAlike(a, b, lib) && AllFindingsAlike(fs, gs, lib)
    ensures AllEntriesAlike(b, a, lib) && AllFindingsAlike(gs, fs, lib)
  {}

  // How the gate ends, given the exceptions read and the findings yielded; None is an exception raised before.
  ghost function Verdict(exceptions: Option<seq<Entry>>, findings: Option<seq<Finding>>, lib: Library): Outcome {
    if exceptions.None? || findings.None? || SomeMistyped(findings.value, lib) then Raises
    else if ProperList(exceptions.value, lib) && CoveredOnce(exceptions.value, findings.value, lib) then Exit(0)
    else Exit(1)
  }

  // Findings and exceptions match whatever their case and the whitespace around them: writing any of them differently
  // in that respect alone does not change how the gate ends.
  lemma CaseDoesNotMatter(a: seq<Entry>, b: seq<Entry>, fs: seq<Finding>, gs: seq<Finding>, lib: Library)
    requires AllEntriesAlike(a, b, lib) && AllFindingsAlike(fs, gs, lib)
    ensures Verdict(Some(a), Some(fs), lib) == Verdict(Some(b), Some(gs), lib)
  {
    AlikeIsSymmetric(a, b, fs, gs, lib);
    forall i | 0 <= i < |fs| ensures Mistyped(fs[i], lib) <==> Mistyped(gs[i], lib) {
      AlikeFindings(fs[i], gs[i], lib);
    }
    if ProperList(a, lib) { AlikeLists(a, b, lib); }
    if ProperList(b, lib) { AlikeLists(b, a, lib); }
    if CoveredOnce(a, fs, lib) { AlikeCoveredOnce(a, b, fs, gs, lib); }
    if CoveredOnce(b, gs, lib) { AlikeCoveredOnce(b, a, gs, fs, lib); }
  }

  // ---- main ----

  /**
   main, on a report already decoded and the lines of the exception list. The exit code is 0 only if the list is in
   order and every high finding of the report has an unexpired exception; exactly then, with severities compared, if
   findings about the same advisory agree on severity; and in general if the first of them in each case is covered
   fully.
   */
  method RunGate(report: Json, lines: seq<string>, lib: Library) returns (outcome: Outcome)
    ensures outcome.Exit? ==> Parse(lines).Some? && Findings(report, lib).Some? && outcome.code in {0, 1}
    ensures outcome == Verdict(Parse(lines), Findings(report, lib), lib)
    ensures outcome == Raises <==> Parse(lines).None? || ReportRaises(report) || OddSeverity(report, lib)
    ensures outcome == Exit(0) ==>
      ProperList(Parse(lines).value, lib) && AllCovered(report, Parse(lines).value, lib)
    ensures outcome.Exit? && OneSeverity(report, lib) ==>
      (outcome == Exit(0) <==>
      ProperList(Parse(lines).value, lib) && AllCoveredFully(report, Parse(lines).value, lib))
  {
    outcome := RunChecks(report, lines, lib);
    FindingsMean(report, lib);
    if Parse(lines).Some? && Findings(report, lib).Some? {
      var exceptions := Parse(lines).value;
      OddMeans(report, lib);
      ProperListMeans(exceptions, lib);
      ExcusedOnceMeans(exceptions, Findings(report, lib).value, lib);
      AllExcusedMeans(report, exceptions, lib);
      if outcome == Exit(0) {
        CleanIsCovered(report, exceptions, lib);
      }
      if OneSeverity(report, lib) {
        OneSeverityAgrees(report, lib);
      }
    }
  }
}
