/**
 defaults and check of backend/ent/account_create.go, and how single and bulk save use them.
 */
module AccountCreate {
  import opened Wrappers

  // Mutation fields that defaults or check look at.
  datatype Field =
    | CreatedAt | UpdatedAt | Name | Platform | Type | Credentials | Extra | Concurrency | Priority | RateMultiplier
    | Status | AutoPauseOnExpired | Schedulable | SessionWindowStatus | QuotaDimension

  // Field values are tokens; what matters is which are set and which a validator accepts.
  type Values = map<Field, int>

  // The package variables of ent/account: default functions (absent when nil), default values, validators.
  datatype Runtime = Runtime(functions: map<Field, int>, constants: Field -> int, validates: (Field, int) -> bool)

  datatype CheckError = Missing(field: Field) | Invalid(field: Field)

  // Fields defaults fills through a function variable, and those it fills with a plain value.
  predicate Nullable(f: Field) { f.CreatedAt? || f.UpdatedAt? || f.Credentials? || f.Extra? }

  predicate Plain(f: Field) {
    f.Concurrency? || f.Priority? || f.RateMultiplier? || f.Status? || f.AutoPauseOnExpired? || f.Schedulable?
      || f.QuotaDimension?
  }

  // check's order; SessionWindowStatus is the one field it does not require.
  function Rank(f: Field): nat {
    match f
    case CreatedAt => 0 case UpdatedAt => 1 case Name => 2 case Platform => 3 case Type => 4 case Credentials => 5
    case Extra => 6 case Concurrency => 7 case Priority => 8 case RateMultiplier => 9 case Status => 10
    case AutoPauseOnExpired => 11 case Schedulable => 12 case SessionWindowStatus => 13 case QuotaDimension => 14
  }

  predicate Required(f: Field) { !f.SessionWindowStatus? }

  predicate Validated(f: Field) {
    f.Name? || f.Platform? || f.Type? || f.Status? || f.SessionWindowStatus? || f.QuotaDimension?
  }

  // What check tests of one field.
  predicate FieldOk(rt: Runtime, m: Values, f: Field) {
    && (Required(f) ==> f in m)
    && (Validated(f) && f in m ==> rt.validates(f, m[f]))
  }

  // The value a field has once every available default has been applied.
  function Resolved(rt: Runtime, m: Values, f: Field): Option<int> {
    if f in m then Some(m[f])
    else if Nullable(f) && f in rt.functions then Some(rt.functions[f])
    else if Plain(f) then Some(rt.constants(f))
    else None
  }

  // What single save needs of one field.
  predicate FieldCreatable(rt: Runtime, m: Values, f: Field) {
    && (Required(f) ==> Resolved(rt, m, f).Some?)
    && (Validated(f) && Resolved(rt, m, f).Some? ==> rt.validates(f, Resolved(rt, m, f).value))
  }

  // Reference definition: a builder can be saved when every required field resolves and every validator accepts.
  ghost predicate Creatable(rt: Runtime, m: Values) { forall f :: FieldCreatable(rt, m, f) }

  // Setting defaults neither overwrites nor invents: every set field holds its resolved value.
  ghost predicate Resolves(rt: Runtime, before: Values, after: Values) {
    && before.Keys <= after.Keys
    && forall f :: f in after ==> Some(after[f]) == Resolved(rt, before, f)
  }

  /**
   After defaults, check accepts exactly the creatable builders; and where defaults stopped early, the field it
   stopped at makes check refuse.
   */
  lemma DefaultsDecide(rt: Runtime, before: Values, after: Values, stopped: Option<Field>)
    requires Resolves(rt, before, after)
    requires stopped.None? ==> forall f :: f in after <==> f in before || Nullable(f) || Plain(f)
    requires stopped.Some? ==> Nullable(stopped.value) && stopped.value !in after && stopped.value !in rt.functions
    ensures (forall f :: FieldOk(rt, after, f)) <==> Creatable(rt, before)
    ensures stopped.Some? ==> !FieldOk(rt, after, stopped.value)
  {
    if stopped.Some? {
      assert !FieldCreatable(rt, before, stopped.value) && !FieldOk(rt, after, stopped.value);
    } else {
      forall f ensures FieldOk(rt, after, f) <==> FieldCreatable(rt, before, f) {
        assert f in after <==> Resolved(rt, before, f).Some?;
      }
    }
  }

  // What check accepts.
  predicate Accepted(rt: Runtime, m: Values) { forall f: Field :: FieldOk(rt, m, f) }

  // An unset field whose default function is missing stops defaults.
  predicate Blocks(rt: Runtime, m: Values, f: Field) { Nullable(f) && f !in m && f !in rt.functions }

  predicate Reached(rt: Runtime, m: Values, f: Field) { forall g: Field :: Blocks(rt, m, g) ==> Rank(f) < Rank(g) }

  // What defaults leaves: every field it reaches is resolved.
  function DefaultsOf(rt: Runtime, m: Values): Values {
    map f: Field | Resolved(rt, m, f).Some? && (f in m || Reached(rt, m, f)) :: Resolved(rt, m, f).value
  }

  lemma DefaultsAre(rt: Runtime, before: Values, after: Values, stopped: Option<Field>)
    requires Resolves(rt, before, after)
    requires stopped.None? ==> forall f :: f in after <==> f in before || Nullable(f) || Plain(f)
    requires stopped.Some? ==> Nullable(stopped.value) && stopped.value !in after && stopped.value !in rt.functions
    requires stopped.Some? ==> forall f ::
      f in after <==> f in before || (Nullable(f) && Rank(f) < Rank(stopped.value))
    ensures after == DefaultsOf(rt, before)
  {
    if stopped.Some? {
      assert Blocks(rt, before, stopped.value);
    }
    forall g | Blocks(rt, before, g) ensures stopped.Some? && Rank(stopped.value) <= Rank(g) {
      assert g !in after;
    }
    forall f ensures f in after <==> f in DefaultsOf(rt, before) {}
  }

  // Running defaults once more changes nothing.
  lemma DefaultsTwice(rt: Runtime, m: Values)
    ensures DefaultsOf(rt, DefaultsOf(rt, m)) == DefaultsOf(rt, m)
  {
    var once := DefaultsOf(rt, m);
    forall g ensures Blocks(rt, once, g) <==> Blocks(rt, m, g) {
      assert Blocks(rt, m, g) ==> Resolved(rt, m, g).None?;
    }
    forall f ensures Reached(rt, once, f) <==> Reached(rt, m, f) {}
    assert DefaultsOf(rt, once).Keys == once.Keys;
  }

  // defaults followed by check accepts exactly the creatable values.
  lemma DefaultsThenCheck(rt: Runtime, m: Values)
    ensures Accepted(rt, DefaultsOf(rt, m)) <==> Creatable(rt, m)
  {
    var after := DefaultsOf(rt, m);
    if f :| Blocks(rt, m, f) {
      DefaultsDecide(rt, m, after, Some(f));
    } else {
      forall f ensures f in after <==> f in m || Nullable(f) || Plain(f) {
        assert Reached(rt, m, f) && !Blocks(rt, m, f);
      }
      DefaultsDecide(rt, m, after, None);
    }
  }

  // ---- The same, field by field ----

  // What check wants set, and of what it asks a validator.
  predicate Complete(rt: Runtime, m: Values) {
    && CreatedAt in m && UpdatedAt in m && Name in m && Platform in m && Type in m && Credentials in m && Extra in m
    && Concurrency in m && Priority in m && RateMultiplier in m && Status in m && AutoPauseOnExpired in m
    && Schedulable in m && QuotaDimension in m
    && rt.validates(Name, m[Name]) && rt.validates(Platform, m[Platform]) && rt.validates(Type, m[Type])
    && rt.validates(Status, m[Status]) && rt.validates(QuotaDimension, m[QuotaDimension])
    && (SessionWindowStatus in m ==> rt.validates(SessionWindowStatus, m[SessionWindowStatus]))
  }

  lemma AcceptedMeans(rt: Runtime, m: Values)
    ensures Accepted(rt, m) <==> Complete(rt, m)
  {
    if Accepted(rt, m) {
      forall f ensures FieldOk(rt, m, f) {}
      assert FieldOk(rt, m, CreatedAt) && FieldOk(rt, m, UpdatedAt) && FieldOk(rt, m, Name) && FieldOk(rt, m, Platform);
      assert FieldOk(rt, m, Type) && FieldOk(rt, m, Credentials) && FieldOk(rt, m, Extra);
      assert FieldOk(rt, m, Concurrency) && FieldOk(rt, m, Priority) && FieldOk(rt, m, RateMultiplier);
      assert FieldOk(rt, m, Status) && FieldOk(rt, m, AutoPauseOnExpired) && FieldOk(rt, m, Schedulable);
      assert FieldOk(rt, m, SessionWindowStatus) && FieldOk(rt, m, QuotaDimension);
    }
  }

  // The order in which check looks at the fields.
  const CHECK_ORDER := [CreatedAt, UpdatedAt, Name, Platform, Type, Credentials, Extra, Concurrency, Priority,
                        RateMultiplier, Status, AutoPauseOnExpired, Schedulable, SessionWindowStatus, QuotaDimension]

  predicate Offends(rt: Runtime, m: Values, f: Field) {
    || (f != SessionWindowStatus && f !in m)
    || (f in {Name, Platform, Type, Status, SessionWindowStatus, QuotaDimension} && f in m && !rt.validates(f, m[f]))
  }

  // The error names the first field that offends, and whether it is missing or invalid.
  ghost predicate FirstOffence(rt: Runtime, m: Values, err: CheckError) {
    && (err.Missing? <==> err.field !in m)
    && exists i ::
      && 0 <= i < |CHECK_ORDER| && CHECK_ORDER[i] == err.field && Offends(rt, m, CHECK_ORDER[i])
      && forall j :: 0 <= j < i ==> !Offends(rt, m, CHECK_ORDER[j])
  }

  lemma RankIsOrder(f: Field)
    ensures Rank(f) < |CHECK_ORDER| && CHECK_ORDER[Rank(f)] == f
    ensures forall i :: 0 <= i < |CHECK_ORDER| ==> Rank(CHECK_ORDER[i]) == i
  {}

  lemma OffenceIsFirst(rt: Runtime, m: Values, err: CheckError)
    requires !FieldOk(rt, m, err.field) && (err.Missing? <==> err.field !in m)
    requires forall f :: 0 <= Rank(f) < Rank(err.field) ==> FieldOk(rt, m, f)
    ensures FirstOffence(rt, m, err)
  {
    var i := Rank(err.field);
    RankIsOrder(err.field);
    forall f: Field ensures Offends(rt, m, f) <==> !FieldOk(rt, m, f) {}
    assert CHECK_ORDER[i] == err.field && Offends(rt, m, CHECK_ORDER[i]);
    forall j | 0 <= j < i ensures !Offends(rt, m, CHECK_ORDER[j]) {
      assert Rank(CHECK_ORDER[j]) == j;
    }
  }

  // What a caller has to set, given the package variables.
  predicate Suffices(rt: Runtime, m: Values) {
    && Name in m && Platform in m && Type in m
    && (CreatedAt in m || CreatedAt in rt.functions) && (UpdatedAt in m || UpdatedAt in rt.functions)
    && (Credentials in m || Credentials in rt.functions) && (Extra in m || Extra in rt.functions)
    && rt.validates(Name, m[Name]) && rt.validates(Platform, m[Platform]) && rt.validates(Type, m[Type])
    && rt.validates(Status, if Status in m then m[Status] else rt.constants(Status))
    && rt.validates(QuotaDimension, if QuotaDimension in m then m[QuotaDimension] else rt.constants(QuotaDimension))
    && (SessionWindowStatus in m ==> rt.validates(SessionWindowStatus, m[SessionWindowStatus]))
  }

  lemma CreatableMeans(rt: Runtime, m: Values)
    ensures Creatable(rt, m) <==> Suffices(rt, m)
  {
    if Creatable(rt, m) {
      assert FieldCreatable(rt, m, Name) && FieldCreatable(rt, m, Platform) && FieldCreatable(rt, m, Type);
      assert FieldCreatable(rt, m, CreatedAt) && FieldCreatable(rt, m, UpdatedAt);
      assert FieldCreatable(rt, m, Credentials) && FieldCreatable(rt, m, Extra);
      assert FieldCreatable(rt, m, Status) && FieldCreatable(rt, m, QuotaDimension);
      assert FieldCreatable(rt, m, SessionWindowStatus);
    }
  }

  // Where defaults stops.
  function FirstUnfilled(rt: Runtime, m: Values): Option<Field> {
    if CreatedAt !in m && CreatedAt !in rt.functions then Some(CreatedAt)
    else if UpdatedAt !in m && UpdatedAt !in rt.functions then Some(UpdatedAt)
    else if Credentials !in m && Credentials !in rt.functions then Some(Credentials)
    else if Extra !in m && Extra !in rt.functions then Some(Extra)
    else None
  }

  // Which fields it leaves set.
  function FilledFields(stopped: Option<Field>): set<Field> {
    match stopped
    case None =>
      {CreatedAt, UpdatedAt, Credentials, Extra, Concurrency, Priority, RateMultiplier, Status, AutoPauseOnExpired,
       Schedulable, QuotaDimension}
    case Some(UpdatedAt) => {CreatedAt}
    case Some(Credentials) => {CreatedAt, UpdatedAt}
    case Some(Extra) => {CreatedAt, UpdatedAt, Credentials}
    case _ => {}
  }

  // What defaults leaves: nothing overwritten, four fields from their functions, the others from the constants.
  ghost predicate Completes(rt: Runtime, before: Values, after: Values) {
    && after.Keys == before.Keys + FilledFields(FirstUnfilled(rt, before))
    && (forall f :: f in before ==> after[f] == before[f])
    && forall f :: f in after && f !in before ==>
      if f in {CreatedAt, UpdatedAt, Credentials, Extra} then f in rt.functions && after[f] == rt.functions[f]
      else after[f] == rt.constants(f)
  }

  lemma FirstUnfilledBlocks(rt: Runtime, m: Values, f: Field)
    ensures FirstUnfilled(rt, m).Some? ==> Blocks(rt, m, FirstUnfilled(rt, m).value)
    ensures Blocks(rt, m, f) ==> FirstUnfilled(rt, m).Some? && Rank(FirstUnfilled(rt, m).value) <= Rank(f)
  {}

  lemma ReachedMeans(rt: Runtime, m: Values, f: Field)
    ensures Reached(rt, m, f) <==> (FirstUnfilled(rt, m).Some? ==> Rank(f) < Rank(FirstUnfilled(rt, m).value))
  {
    var stop := FirstUnfilled(rt, m);
    FirstUnfilledBlocks(rt, m, f);
    forall g | Blocks(rt, m, g) ensures stop.Some? && Rank(stop.value) <= Rank(g) {
      FirstUnfilledBlocks(rt, m, g);
    }
  }

  lemma FilledFieldsMean(stop: Option<Field>, f: Field)
    requires stop.Some? ==> Nullable(stop.value)
    ensures f in FilledFields(stop) <==>
      if stop.None? then Nullable(f) || Plain(f) else Nullable(f) && Rank(f) < Rank(stop.value)
  {
    match stop
    case None =>
    case Some(CreatedAt) =>
    case Some(UpdatedAt) =>
    case Some(Credentials) =>
    case Some(Extra) =>
  }

  lemma ResolvedMeans(rt: Runtime, m: Values, f: Field)
    ensures f in m ==> Resolved(rt, m, f) == Some(m[f])
    ensures f !in m && f in {CreatedAt, UpdatedAt, Credentials, Extra} ==>
      Resolved(rt, m, f) == if f in rt.functions then Some(rt.functions[f]) else None
    ensures f !in m && f !in {CreatedAt, UpdatedAt, Credentials, Extra} && Resolved(rt, m, f).Some? ==>
      Resolved(rt, m, f) == Some(rt.constants(f))
  {}

  lemma StoppedAtFirst(rt: Runtime, before: Values, after: Values, stopped: Option<Field>)
    requires after == DefaultsOf(rt, before)
    requires stopped.None? ==> forall f :: f in after <==> f in before || Nullable(f) || Plain(f)
    requires stopped.Some? ==> Nullable(stopped.value) && stopped.value !in after && stopped.value !in rt.functions
    requires stopped.Some? ==> forall f ::
      f in after <==> f in before || (Nullable(f) && Rank(f) < Rank(stopped.value))
    ensures stopped == FirstUnfilled(rt, before)
  {
    var stop := FirstUnfilled(rt, before);
    if stop.Some? {
      FirstUnfilledBlocks(rt, before, stop.value);
      assert stop.value !in after;
    }
    if stopped.Some? {
      FirstUnfilledBlocks(rt, before, stopped.value);
      assert Blocks(rt, before, stopped.value);
    }
  }

  lemma DefaultsMean(rt: Runtime, m: Values)
    ensures Completes(rt, m, DefaultsOf(rt, m))
  {
    var after, stop := DefaultsOf(rt, m), FirstUnfilled(rt, m);
    forall f ensures f in after <==> f in m || f in FilledFields(stop) {
      FirstUnfilledBlocks(rt, m, f);
      ReachedMeans(rt, m, f);
      FilledFieldsMean(stop, f);
    }
    forall f | f in after
      ensures f in m ==> after[f] == m[f]
      ensures f !in m ==>
        if f in {CreatedAt, UpdatedAt, Credentials, Extra} then f in rt.functions && after[f] == rt.functions[f]
        else after[f] == rt.constants(f)
    {
      ResolvedMeans(rt, m, f);
    }
  }

  class Builder {
    var mutation: Values

    constructor (mutation: Values)
      ensures this.mutation == mutation
    {
      this.mutation := mutation;
    }

    // `if _, ok := ...; !ok { set }`, for a field with a plain default.
    method SetPlainDefault(rt: Runtime, f: Field, ghost start: Values)
      requires Plain(f) && Resolves(rt, start, mutation)
      modifies this
      ensures Resolves(rt, start, mutation) && mutation.Keys == old(mutation).Keys + {f}
    {
      if f !in mutation {
        mutation := mutation[f := rt.constants(f)];
      }
    }

    // The same through a function variable, which may be nil.
    method SetFunctionDefault(rt: Runtime, f: Field, ghost start: Values) returns (ok: bool)
      requires Nullable(f) && Resolves(rt, start, mutation)
      modifies this
      ensures Resolves(rt, start, mutation)
      ensures ok <==> f in old(mutation) || f in rt.functions
      ensures mutation.Keys == if ok then old(mutation).Keys + {f} else old(mutation).Keys
    {
      if f !in mutation {
        if f !in rt.functions {
          return false;
        }
        mutation := mutation[f := rt.functions[f]];
      }
      return true;
    }

    /**
     defaults: fills what is unset and never overwrites; it stops at the first unset field whose default function
     is missing, and reports it.
     */
    method Defaults(rt: Runtime) returns (err: Option<Field>)
      modifies this
      ensures Resolves(rt, old(mutation), mutation)
      ensures mutation == DefaultsOf(rt, old(mutation))
      ensures err == FirstUnfilled(rt, old(mutation)) && Completes(rt, old(mutation), mutation)
      ensures err.None? ==> forall f :: f in mutation <==> f in old(mutation) || Nullable(f) || Plain(f)
      ensures err.Some? ==> Nullable(err.value) && err.value !in mutation && err.value !in rt.functions
      ensures err.Some? ==> forall f ::
        f in mutation <==> f in old(mutation) || (Nullable(f) && Rank(f) < Rank(err.value))
    {
      err := SetDefaults(rt);
      DefaultsAre(rt, old(mutation), mutation, err);
      DefaultsMean(rt, old(mutation));
      StoppedAtFirst(rt, old(mutation), mutation, err);
    }

    // The ifs of defaults, one by one.
    method SetDefaults(rt: Runtime) returns (err: Option<Field>)
      modifies this
      ensures Resolves(rt, old(mutation), mutation)
      ensures err.None? ==> forall f :: f in mutation <==> f in old(mutation) || Nullable(f) || Plain(f)
      ensures err.Some? ==> Nullable(err.value) && err.value !in mutation && err.value !in rt.functions
      ensures err.Some? ==> forall f ::
        f in mutation <==> f in old(mutation) || (Nullable(f) && Rank(f) < Rank(err.value))
    {
      ghost var start := mutation;
      var ok := SetFunctionDefault(rt, CreatedAt, start);
      if !ok { return Some(CreatedAt); }
      ok := SetFunctionDefault(rt, UpdatedAt, start);
      if !ok { return Some(UpdatedAt); }
      ok := SetFunctionDefault(rt, Credentials, start);
      if !ok { return Some(Credentials); }
      ok := SetFunctionDefault(rt, Extra, start);
      if !ok { return Some(Extra); }
      SetPlainDefaults(rt, start);
      return None;
    }

    // The tail of defaults, which cannot fail.
    method SetPlainDefaults(rt: Runtime, ghost start: Values)
      requires Resolves(rt, start, mutation)
      modifies this
      ensures Resolves(rt, start, mutation)
      ensures forall f :: f in mutation <==> f in old(mutation) || Plain(f)
    {
      SetPlainDefault(rt, Concurrency, start);
      SetPlainDefault(rt, Priority, start);
      SetPlainDefault(rt, RateMultiplier, start);
      SetPlainDefault(rt, Status, start);
      SetPlainDefault(rt, AutoPauseOnExpired, start);
      SetPlainDefault(rt, Schedulable, start);
      SetPlainDefault(rt, QuotaDimension, start);
    }

    // One or two of check's ifs: presence, then the validator.
    method CheckField(rt: Runtime, f: Field) returns (err: Option<CheckError>)
      ensures err.None? <==> FieldOk(rt, mutation, f)
      ensures err == None || (err == Some(Missing(f)) && f !in mutation) || (err == Some(Invalid(f)) && f in mutation)
    {
      if Required(f) && f !in mutation {
        return Some(Missing(f));
      }
      if Validated(f) && f in mutation && !rt.validates(f, mutation[f]) {
        return Some(Invalid(f));
      }
      return None;
    }

    // err is the first offence among the fields ranked lo to hi - 1.
    ghost predicate Reported(rt: Runtime, err: Option<CheckError>, lo: nat, hi: nat)
      reads this
    {
      match err
      case None => forall f :: lo <= Rank(f) < hi ==> FieldOk(rt, mutation, f)
      case Some(e) =>
        && lo <= Rank(e.field) < hi && !FieldOk(rt, mutation, e.field)
        && (e.Missing? <==> e.field !in mutation)
        && forall f :: lo <= Rank(f) < Rank(e.field) ==> FieldOk(rt, mutation, f)
    }

    // check: reports the first offending field in its order, and accepts exactly when no field offends.
    method Check(rt: Runtime) returns (err: Option<CheckError>)
      ensures err.None? <==> Complete(rt, mutation)
      ensures err.Some? ==> FirstOffence(rt, mutation, err.value)
    {
      err := CheckAll(rt);
      AcceptedMeans(rt, mutation);
      if err.Some? {
        OffenceIsFirst(rt, mutation, err.value);
      }
    }

    // Its ifs, one by one.
    method CheckAll(rt: Runtime) returns (err: Option<CheckError>)
      ensures Reported(rt, err, 0, 15)
      ensures err.None? <==> Accepted(rt, mutation)
    {
      err := CheckThroughType(rt);
      if err.Some? { return; }
      err := CheckThroughPriority(rt);
      if err.Some? { return; }
      err := CheckThroughPause(rt);
      if err.Some? { return; }
      err := CheckThroughQuota(rt);
    }

    method CheckThroughType(rt: Runtime) returns (err: Option<CheckError>)
      ensures Reported(rt, err, 0, 5)
    {
      err := CheckField(rt, CreatedAt);
      if err.Some? { return; }
      err := CheckField(rt, UpdatedAt);
      if err.Some? { return; }
      err := CheckField(rt, Name);
      if err.Some? { return; }
      err := CheckField(rt, Platform);
      if err.Some? { return; }
      err := CheckField(rt, Type);
    }

    method CheckThroughPriority(rt: Runtime) returns (err: Option<CheckError>)
      ensures Reported(rt, err, 5, 9)
    {
      err := CheckField(rt, Credentials);
      if err.Some? { return; }
      err := CheckField(rt, Extra);
      if err.Some? { return; }
      err := CheckField(rt, Concurrency);
      if err.Some? { return; }
      err := CheckField(rt, Priority);
    }

    method CheckThroughPause(rt: Runtime) returns (err: Option<CheckError>)
      ensures Reported(rt, err, 9, 12)
    {
      err := CheckField(rt, RateMultiplier);
      if err.Some? { return; }
      err := CheckField(rt, Status);
      if err.Some? { return; }
      err := CheckField(rt, AutoPauseOnExpired);
    }

    method CheckThroughQuota(rt: Runtime) returns (err: Option<CheckError>)
      ensures Reported(rt, err, 12, 15)
    {
      err := CheckField(rt, Schedulable);
      if err.Some? { return; }
      err := CheckField(rt, SessionWindowStatus);
      if err.Some? { return; }
      err := CheckField(rt, QuotaDimension);
    }

    // Single save up to its insert: a defaults error is returned, then check decides.
    method SingleAccepts(rt: Runtime) returns (accepted: bool)
      modifies this
      ensures accepted <==> Suffices(rt, old(mutation))
      ensures accepted ==> Completes(rt, old(mutation), mutation)
    {
      var missing := Defaults(rt);
      DefaultsDecide(rt, old(mutation), mutation, missing);
      AcceptedMeans(rt, mutation);
      CreatableMeans(rt, old(mutation));
      if missing.Some? {
        return false;
      }
      var err := Check(rt);
      accepted := err.None?;
    }

    // Bulk save drops the defaults error; check still refuses exactly the same builders.
    method BulkAccepts(rt: Runtime) returns (accepted: bool)
      modifies this
      ensures accepted <==> Suffices(rt, old(mutation))
      ensures accepted ==> Completes(rt, old(mutation), mutation)
    {
      var ignored := Defaults(rt);
      DefaultsDecide(rt, old(mutation), mutation, ignored);
      AcceptedMeans(rt, mutation);
      CreatableMeans(rt, old(mutation));
      var err := Check(rt);
      accepted := err.None?;
    }
  }
}
