/**
 The query builder of backend/ent/account_query.go on the heap: Go slices with their backing arrays, the shared
 QueryContext, nested with-queries, and Clone.

 Predicates, order options, modifiers, field names and paths are tokens. One class stands for the
 query types of all edges: they are generated from one template.
 */
module QueryClone {
  import opened Wrappers

  // A Go slice header: the first `len` elements of a backing array, whose length is the capacity.
  datatype Slice = Slice(backing: array<int>, len: nat)

  ghost predicate InBounds(s: Slice) { s.len <= s.backing.Length }

  ghost function Elements(s: Slice): seq<int>
    requires InBounds(s)
    reads s.backing
  {
    s.backing[..s.len]
  }

  // append(s, xs...): in place when the capacity suffices, else into a new, larger array.
  method Append(s: Slice, xs: seq<int>) returns (t: Slice)
    requires InBounds(s)
    modifies s.backing
    ensures InBounds(t) && Elements(t) == old(Elements(s)) + xs
    ensures t.backing == s.backing || fresh(t.backing)
    ensures t.backing == s.backing <==> s.len + |xs| <= s.backing.Length
  {
    var n := s.len + |xs|;
    if n <= s.backing.Length {
      ghost var before := s.backing[..s.len];
      forall i | 0 <= i < |xs| {
        s.backing[s.len + i] := xs[i];
      }
      t := Slice(s.backing, n);
      assert s.backing[..n] == before + xs;
    } else {
      var grown := new int[2 * n];
      forall i | 0 <= i < s.len {
        grown[i] := s.backing[i];
      }
      forall i | 0 <= i < |xs| {
        grown[s.len + i] := xs[i];
      }
      t := Slice(grown, n);
      assert grown[..n] == s.backing[..s.len] + xs;
    }
  }

  // append([]T{}, s...): always a new array.
  method Copy(s: Slice) returns (t: Slice)
    requires InBounds(s)
    ensures InBounds(t) && fresh(t.backing) && Elements(t) == Elements(s)
  {
    var backing := new int[s.len];
    forall i | 0 <= i < s.len {
      backing[i] := s.backing[i];
    }
    t := Slice(backing, s.len);
  }

  method NewSlice() returns (t: Slice)
    ensures InBounds(t) && fresh(t.backing) && Elements(t) == []
  {
    var backing := new int[0];
    t := Slice(backing, 0);
  }

  // The steps a query carries itself: its context, its slices and its path.
  datatype Steps = Steps(limit: Option<int>, offset: Option<int>, unique: Option<bool>, fields: seq<int>,
                         order: seq<int>, predicates: seq<int>, modifiers: seq<int>, path: Option<int>)

  // What a query says: its own steps and, for each requested edge, what the edge's query says.
  datatype Spec = Spec(own: Steps, withParent: Option<Spec>, withChildren: Option<Spec>)

  const NO_STEPS := Steps(None, None, None, [], [], [], [], None)

  // One builder call that touches the query's own steps. Lock is ForUpdate or ForShare: on Postgres they also forbid
  // DISTINCT, by Unique(false).
  datatype Call =
    | Where(ps: seq<int>) | Order(os: seq<int>) | Limit(n: int) | Offset(n: int) | Unique(b: bool)
    | Select(fs: seq<int>) | Modify(m: int) | Lock(postgres: bool, m: int)

  function After(v: Steps, call: Call): Steps {
    match call
    case Where(ps) => v.(predicates := v.predicates + ps)
    case Order(os) => v.(order := v.order + os)
    case Limit(n) => v.(limit := Some(n))
    case Offset(n) => v.(offset := Some(n))
    case Unique(b) => v.(unique := Some(b))
    case Select(fs) => v.(fields := v.fields + fs)
    case Modify(m) => v.(modifiers := v.modifiers + [m])
    case Lock(postgres, m) => v.(unique := if postgres then Some(false) else v.unique, modifiers := v.modifiers + [m])
  }

  // The effect of a call, field by field.
  ghost predicate Changes(v: Steps, call: Call, w: Steps) {
    && w.limit == (match call case Limit(n) => Some(n) case _ => v.limit)
    && w.offset == (match call case Offset(n) => Some(n) case _ => v.offset)
    && w.unique == (match call case Unique(b) => Some(b) case Lock(true, _) => Some(false) case _ => v.unique)
    && w.fields == v.fields + (match call case Select(fs) => fs case _ => [])
    && w.order == v.order + (match call case Order(os) => os case _ => [])
    && w.predicates == v.predicates + (match call case Where(ps) => ps case _ => [])
    && w.modifiers == v.modifiers + (match call case Modify(m) => [m] case Lock(_, m) => [m] case _ => [])
    && w.path == v.path
  }

  lemma AfterChanges(v: Steps, call: Call)
    ensures Changes(v, call, After(v, call))
  {
    match call
    case Lock(postgres, _) =>
      if postgres {
        assert call.Lock? && call.postgres;
      }
    case _ =>
  }

  class QueryContext {
    var limit: Option<int>
    var offset: Option<int>
    var unique: Option<bool>
    var fields: Slice

    constructor (limit: Option<int>, offset: Option<int>, unique: Option<bool>, fields: Slice)
      ensures this.limit == limit && this.offset == offset && this.unique == unique && this.fields == fields
    {
      this.limit, this.offset, this.unique, this.fields := limit, offset, unique, fields;
    }
  }

  // The part of the query struct that is not a with* field.
  class Builder {
    var ctx: QueryContext
    var order: Slice
    var predicates: Slice
    var modifiers: Slice
    var path: Option<int>

    ghost var steps: Steps
    ghost var Repr: set<object>

    // The builder owns its context and every backing array, and no backing array serves two slices.
    ghost predicate Valid()
      reads this, Repr
    {
      && this in Repr && ctx in Repr
      && var a, b, c, d := order.backing, predicates.backing, modifiers.backing, ctx.fields.backing;
      && a in Repr && b in Repr && c in Repr && d in Repr
      && a != b && a != c && a != d && b != c && b != d && c != d
      && InBounds(order) && InBounds(predicates) && InBounds(modifiers) && InBounds(ctx.fields)
      && steps == Steps(ctx.limit, ctx.offset, ctx.unique, Elements(ctx.fields), Elements(order), Elements(predicates),
                        Elements(modifiers), path)
    }

    constructor ()
      ensures Valid() && fresh(Repr) && steps == NO_STEPS
    {
      var a := NewSlice();
      var b := NewSlice();
      var c := NewSlice();
      var d := NewSlice();
      var context := new QueryContext(None, None, None, d);
      ctx, order, predicates, modifiers, path := context, a, b, c, None;
      Repr := {this, context, a.backing, b.backing, c.backing, d.backing};
      steps := NO_STEPS;
    }

    constructor Of(ctx: QueryContext, order: Slice, predicates: Slice, modifiers: Slice, path: Option<int>)
      requires InBounds(order) && InBounds(predicates) && InBounds(modifiers) && InBounds(ctx.fields)
      ensures this.ctx == ctx && this.order == order && this.predicates == predicates
      ensures this.modifiers == modifiers && this.path == path
      ensures Repr == {this, ctx, order.backing, predicates.backing, modifiers.backing, ctx.fields.backing}
      ensures steps == Steps(ctx.limit, ctx.offset, ctx.unique, Elements(ctx.fields), Elements(order),
                             Elements(predicates), Elements(modifiers), path)
    {
      this.ctx, this.order, this.predicates := ctx, order, predicates;
      this.modifiers, this.path := modifiers, path;
      Repr := {this, ctx, order.backing, predicates.backing, modifiers.backing, ctx.fields.backing};
      steps := Steps(ctx.limit, ctx.offset, ctx.unique, Elements(ctx.fields), Elements(order), Elements(predicates),
                     Elements(modifiers), path);
    }

    // Clone's treatment of these fields: every slice is copied, the context is cloned, modifiers are left out.
    method Clone() returns (c: Builder)
      requires Valid()
      ensures c.Valid() && fresh(c.Repr) && c.steps == steps.(modifiers := [])
    {
      var fields := Copy(ctx.fields);
      var context := new QueryContext(ctx.limit, ctx.offset, ctx.unique, fields);
      var order' := Copy(order);
      var predicates' := Copy(predicates);
      var none := NewSlice();
      c := new Builder.Of(context, order', predicates', none, path);
    }

    method AddPredicates(ps: seq<int>)
      requires Valid()
      modifies Repr
      ensures Valid() && fresh(Repr - old(Repr)) && steps == old(steps).(predicates := old(steps.predicates) + ps)
    {
      predicates := Append(predicates, ps);
      Repr, steps := Repr + {predicates.backing}, steps.(predicates := Elements(predicates));
    }

    method AddOrder(os: seq<int>)
      requires Valid()
      modifies Repr
      ensures Valid() && fresh(Repr - old(Repr)) && steps == old(steps).(order := old(steps.order) + os)
    {
      order := Append(order, os);
      Repr, steps := Repr + {order.backing}, steps.(order := Elements(order));
    }

    method AddFields(fs: seq<int>)
      requires Valid()
      modifies Repr
      ensures Valid() && fresh(Repr - old(Repr)) && steps == old(steps).(fields := old(steps.fields) + fs)
    {
      var fields := Append(ctx.fields, fs);
      ctx.fields := fields;
      Repr, steps := Repr + {fields.backing}, steps.(fields := Elements(fields));
    }

    method AddModifier(m: int)
      requires Valid()
      modifies Repr
      ensures Valid() && fresh(Repr - old(Repr)) && steps == old(steps).(modifiers := old(steps.modifiers) + [m])
    {
      modifiers := Append(modifiers, [m]);
      Repr, steps := Repr + {modifiers.backing}, steps.(modifiers := Elements(modifiers));
    }

    // The calls that only set a field of the context.
    method SetContext(limit: Option<int>, offset: Option<int>, unique: Option<bool>)
      requires Valid()
      modifies ctx, this`steps
      ensures Valid() && Repr == old(Repr) && steps == old(steps).(limit := limit, offset := offset, unique := unique)
    {
      ctx.limit, ctx.offset, ctx.unique := limit, offset, unique;
      steps := steps.(limit := limit, offset := offset, unique := unique);
    }

    method Do(call: Call)
      requires Valid()
      modifies Repr
      ensures Valid() && fresh(Repr - old(Repr))
      ensures steps == After(old(steps), call) && Changes(old(steps), call, steps)
    {
      AfterChanges(steps, call);
      match call
      case Where(ps) => AddPredicates(ps);
      case Order(os) => AddOrder(os);
      case Limit(n) => SetContext(Some(n), ctx.offset, ctx.unique);
      case Offset(n) => SetContext(ctx.limit, Some(n), ctx.unique);
      case Unique(b) => SetContext(ctx.limit, ctx.offset, Some(b));
      case Select(fs) => AddFields(fs);
      case Modify(m) => AddModifier(m);
      case Lock(postgres, m) =>
        if postgres {
          SetContext(ctx.limit, ctx.offset, Some(false));
        }
        AddModifier(m);
    }
  }

  // A query: its own steps and the queries of the edges it loads eagerly.
  class Query {
    var own: Builder
    var withParent: Query?
    var withChildren: Query?
    ghost var spec: Spec
    ghost var Repr: set<object>

    ghost predicate Valid()
      reads this, Repr
      decreases Repr
      ensures Valid() ==> this in Repr
    {
      && this in Repr && own in Repr && own.Repr <= Repr && this !in own.Repr && own.Valid()
      && (withParent != null ==>
            && withParent in Repr && withParent.Repr <= Repr && this !in withParent.Repr && withParent.Repr !! own.Repr
            && withParent.Valid())
      && (withChildren != null ==>
            && withChildren in Repr && withChildren.Repr <= Repr && this !in withChildren.Repr
              && withChildren.Repr !! own.Repr
            && withChildren.Valid())
      && (withParent != null && withChildren != null ==> withParent.Repr !! withChildren.Repr)
      && spec == Spec(own.steps, SpecOf(withParent), SpecOf(withChildren))
    }

    constructor ()
      ensures Valid() && fresh(Repr) && spec == Spec(NO_STEPS, None, None)
    {
      own := new Builder();
      withParent, withChildren := null, null;
      new;
      Repr := {this} + own.Repr;
      spec := Spec(NO_STEPS, None, None);
    }

    // Everything Valid asks for, apart from the ghost summary in Repr and spec.
    ghost predicate Wired()
      reads this, own, own.Repr, withParent, Footprint(withParent), withChildren, Footprint(withChildren)
    {
      && own.Valid() && this !in own.Repr && this !in Footprint(withParent) && this !in Footprint(withChildren)
      && own.Repr !! Footprint(withParent) && own.Repr !! Footprint(withChildren)
      && Footprint(withParent) !! Footprint(withChildren)
      && (withParent != null ==> withParent.Valid()) && (withChildren != null ==> withChildren.Valid())
    }

    ghost method Summarize()
      requires Wired()
      modifies this`Repr, this`spec
      ensures Valid() && Repr == {this} + own.Repr + Footprint(withParent) + Footprint(withChildren)
      ensures spec == Spec(own.steps, SpecOf(withParent), SpecOf(withChildren))
    {
      Repr := {this} + own.Repr + Footprint(withParent) + Footprint(withChildren);
      spec := Spec(own.steps, SpecOf(withParent), SpecOf(withChildren));
    }

    // The struct literal Clone returns.
    constructor Of(own: Builder, withParent: Query?, withChildren: Query?)
      requires own.Valid()
      requires withParent != null ==> withParent.Valid() && withParent.Repr !! own.Repr
      requires withChildren != null ==> withChildren.Valid() && withChildren.Repr !! own.Repr
      requires withParent != null && withChildren != null ==> withParent.Repr !! withChildren.Repr
      ensures Valid() && fresh(this)
      ensures Repr == {this} + own.Repr + Footprint(withParent) + Footprint(withChildren)
      ensures spec == Spec(own.steps, SpecOf(withParent), SpecOf(withChildren))
    {
      this.own, this.withParent, this.withChildren := own, withParent, withChildren;
      new;
      Summarize();
    }

    // Where, Order, Limit, Offset, Unique, Select, ForUpdate and ForShare.
    method Do(call: Call)
      requires Valid()
      modifies Repr
      ensures Valid() && fresh(Repr - old(Repr))
      ensures spec == old(spec).(own := After(old(spec).own, call)) && Changes(old(spec).own, call, spec.own)
    {
      own.Do(call);
      Repr := Repr + own.Repr;
      spec := spec.(own := own.steps);
    }

    // WithParent: a new query, already configured by the caller's options, replaces whatever the edge held.
    method WithParent(query: Query)
      requires Valid() && query.Valid() && query.Repr !! Repr
      modifies Repr
      ensures Valid() && Repr == old(Repr) + old(query.Repr)
      ensures spec == old(spec).(withParent := Some(old(query.spec)))
    {
      withParent, Repr, spec := query, Repr + query.Repr, spec.(withParent := Some(query.spec));
    }

    method WithChildren(query: Query)
      requires Valid() && query.Valid() && query.Repr !! Repr
      modifies Repr
      ensures Valid() && Repr == old(Repr) + old(query.Repr)
      ensures spec == old(spec).(withChildren := Some(old(query.spec)))
    {
      withChildren, Repr, spec := query, Repr + query.Repr, spec.(withChildren := Some(query.spec));
    }
  }

  ghost function Footprint(q: Query?): set<object>
    reads q
  {
    if q == null then {} else q.Repr
  }

  ghost function SpecOf(q: Query?): Option<Spec>
    reads q
  {
    if q == null then None else Some(q.spec)
  }

  // Clone of AccountQuery; a nil query clones to nil.
  method Clone(q: Query?) returns (c: Query?)
    requires q != null ==> q.Valid()
    ensures c != null ==> c.Valid() && fresh(c.Repr)
    ensures SpecOf(c) == ClonedOption(SpecOf(q))
    decreases Footprint(q), 1
  {
    if q == null {
      return null;
    }
    var parent, children := CloneEdges(q);
    c := CloneStruct(q.own, parent, children);
  }

  // The with* fields of Clone's struct literal.
  method CloneEdges(q: Query) returns (parent: Query?, children: Query?)
    requires q.Valid()
    ensures parent != null ==> parent.Valid() && fresh(parent.Repr)
    ensures children != null ==> children.Valid() && fresh(children.Repr)
    ensures Footprint(parent) !! Footprint(children)
    ensures SpecOf(parent) == ClonedOption(q.spec.withParent) && SpecOf(children) == ClonedOption(q.spec.withChildren)
    decreases q.Repr, 0
  {
    parent := Clone(q.withParent);
    children := Clone(q.withChildren);
  }

  // The struct literal itself.
  method CloneStruct(own: Builder, parent: Query?, children: Query?) returns (c: Query)
    requires own.Valid()
    requires (parent != null ==> parent.Valid()) && (children != null ==> children.Valid())
    requires Footprint(parent) !! Footprint(children)
    ensures c.Valid() && forall o :: o in c.Repr ==> fresh(o) || o in Footprint(parent) || o in Footprint(children)
    ensures c.spec == Spec(own.steps.(modifiers := []), SpecOf(parent), SpecOf(children))
  {
    var own' := own.Clone();
    c := new Query.Of(own', parent, children);
  }

  // What Clone copies: everything but the modifiers, at every level.
  function Cloned(v: Spec): Spec {
    Spec(v.own.(modifiers := []), ClonedOption(v.withParent), ClonedOption(v.withChildren))
  }

  function ClonedOption(v: Option<Spec>): Option<Spec> {
    match v
    case None => None
    case Some(w) => Some(Cloned(w))
  }

  ghost predicate NoModifiers(v: Spec) {
    && v.own.modifiers == []
    && (v.withParent.Some? ==> NoModifiers(v.withParent.value))
    && (v.withChildren.Some? ==> NoModifiers(v.withChildren.value))
  }

  // The documentation promises a duplicate with all associated steps; it is one exactly for a query that carries no
  // modifier at any level.
  lemma {:induction false} CloneIsDuplicateExactlyWithoutModifiers(v: Spec)
    ensures Cloned(v) == v <==> NoModifiers(v)
  {
    if v.withParent.Some? {
      CloneIsDuplicateExactlyWithoutModifiers(v.withParent.value);
    }
    if v.withChildren.Some? {
      CloneIsDuplicateExactlyWithoutModifiers(v.withChildren.value);
    }
  }

  // Anything the code does to a query: a builder call, a With* call whose options configure the new query, or an edit
  // of a nested query, as the loaders make when they add their WHERE clause.
  datatype Edit =
    | Own(call: Call) | SetParent(config: seq<Edit>) | SetChildren(config: seq<Edit>)
    | InParent(edit: Edit) | InChildren(edit: Edit)

  function Applied(v: Spec, edit: Edit): Spec
    decreases edit
  {
    match edit
    case Own(call) => v.(own := After(v.own, call))
    case SetParent(config) => v.(withParent := Some(AppliedAll(Spec(NO_STEPS, None, None), config)))
    case SetChildren(config) => v.(withChildren := Some(AppliedAll(Spec(NO_STEPS, None, None), config)))
    case InParent(e) => if v.withParent.None? then v else v.(withParent := Some(Applied(v.withParent.value, e)))
    case InChildren(e) => if v.withChildren.None? then v else v.(withChildren := Some(Applied(v.withChildren.value, e)))
  }

  function AppliedAll(v: Spec, edits: seq<Edit>): Spec
    decreases edits
  {
    if edits == [] then v else AppliedAll(Applied(v, edits[0]), edits[1..])
  }

  // What an edit leaves alone, and where it takes effect.
  lemma EditMeans(v: Spec, edit: Edit)
    ensures edit.Own? ==>
      Applied(v, edit).withParent == v.withParent && Applied(v, edit).withChildren == v.withChildren
    ensures edit.Own? ==> Changes(v.own, edit.call, Applied(v, edit).own)
    ensures edit.SetParent? || edit.InParent? ==>
      Applied(v, edit).own == v.own && Applied(v, edit).withChildren == v.withChildren
    ensures edit.SetChildren? || edit.InChildren? ==>
      Applied(v, edit).own == v.own && Applied(v, edit).withParent == v.withParent
    ensures edit.InParent? && v.withParent.None? ==> Applied(v, edit) == v
    ensures edit.InChildren? && v.withChildren.None? ==> Applied(v, edit) == v
    ensures edit.InParent? && v.withParent.Some? ==>
      Applied(v, edit).withParent == Some(Applied(v.withParent.value, edit.edit))
    ensures edit.InChildren? && v.withChildren.Some? ==>
      Applied(v, edit).withChildren == Some(Applied(v.withChildren.value, edit.edit))
  {
    if edit.Own? {
      AfterChanges(v.own, edit.call);
    }
  }

  // What With* leaves: a query that has only what its options gave it.
  lemma {:induction false} ConfigMeans(v: Spec, config: seq<Edit>, last: Edit)
    ensures AppliedAll(v, []) == v
    ensures AppliedAll(v, config + [last]) == Applied(AppliedAll(v, config), last)
    decreases config
  {
    if config == [] {
      assert [] + [last] == [last] && [last][1..] == [];
    } else {
      assert (config + [last])[1..] == config[1..] + [last];
      ConfigMeans(Applied(v, config[0]), config[1..], last);
    }
  }

  // The edit without its locks and modifiers; None if nothing else is left. A lock on Postgres leaves its
  // Unique(false).
  function Unlocked(edit: Edit): Option<Edit>
    decreases edit
  {
    match edit
    case Own(Modify(_)) => None
    case Own(Lock(postgres, _)) => if postgres then Some(Own(Unique(false))) else None
    case Own(_) => Some(edit)
    case SetParent(config) => Some(SetParent(AllUnlocked(config)))
    case SetChildren(config) => Some(SetChildren(AllUnlocked(config)))
    case InParent(e) => if Unlocked(e).None? then None else Some(InParent(Unlocked(e).value))
    case InChildren(e) => if Unlocked(e).None? then None else Some(InChildren(Unlocked(e).value))
  }

  function AllUnlocked(edits: seq<Edit>): seq<Edit>
    decreases edits
  {
    if edits == [] then []
    else if Unlocked(edits[0]).None? then AllUnlocked(edits[1..])
    else [Unlocked(edits[0]).value] + AllUnlocked(edits[1..])
  }

  // Cloning forgets exactly the locks and modifiers: the clone of an edited query is the clone of the query, edited
  // without them, at every level. So a lock on the original is never in the clone, but its Unique(false) is.
  lemma {:induction false} CloneForgetsLocks(v: Spec, edits: seq<Edit>)
    ensures Cloned(AppliedAll(v, edits)) == AppliedAll(Cloned(v), AllUnlocked(edits))
    decreases edits
  {
    if edits != [] {
      OneEditUnlocked(v, edits[0]);
      CloneForgetsLocks(Applied(v, edits[0]), edits[1..]);
      if Unlocked(edits[0]).Some? {
        var rest := AllUnlocked(edits[1..]);
        assert ([Unlocked(edits[0]).value] + rest)[1..] == rest;
      }
    }
  }

  lemma {:induction false} OneEditUnlocked(v: Spec, edit: Edit)
    ensures Cloned(Applied(v, edit)) ==
      if Unlocked(edit).None? then Cloned(v) else Applied(Cloned(v), Unlocked(edit).value)
    decreases edit
  {
    match edit
    case Own(_) =>
    case SetParent(config) => CloneForgetsLocks(Spec(NO_STEPS, None, None), config);
    case SetChildren(config) => CloneForgetsLocks(Spec(NO_STEPS, None, None), config);
    case InParent(e) => if v.withParent.Some? { OneEditUnlocked(v.withParent.value, e); }
    case InChildren(e) => if v.withChildren.Some? { OneEditUnlocked(v.withChildren.value, e); }
  }

  method Apply(q: Query, edit: Edit)
    requires q.Valid()
    modifies q.Repr
    ensures q.Valid() && fresh(q.Repr - old(q.Repr)) && q.spec == Applied(old(q.spec), edit)
    decreases edit, 1
  {
    match edit
    case Own(call) => q.Do(call);
    case SetParent(config) =>
      var query := Configured(config);
      q.WithParent(query);
    case SetChildren(config) =>
      var query := Configured(config);
      q.WithChildren(query);
    case InParent(e) =>
      if q.withParent != null {
        ApplyInParent(q, e);
      }
    case InChildren(e) =>
      if q.withChildren != null {
        ApplyInChildren(q, e);
      }
  }

  // The query a With* call creates, after its options ran.
  method Configured(config: seq<Edit>) returns (query: Query)
    ensures query.Valid() && fresh(query.Repr) && query.spec == AppliedAll(Spec(NO_STEPS, None, None), config)
    decreases config, 2
  {
    query := new Query();
    ApplyAll(query, config);
  }

  method ApplyInParent(q: Query, e: Edit)
    requires q.Valid() && q.withParent != null
    modifies q.Repr
    ensures q.Valid() && fresh(q.Repr - old(q.Repr))
    ensures q.spec == old(q.spec).(withParent := Some(Applied(old(q.spec.withParent.value), e)))
    decreases e, 3
  {
    ApplyToParent(q, e);
    q.Summarize();
  }

  // The nested query changes; everything else q refers to stays, and apart from it.
  method ApplyToParent(q: Query, e: Edit)
    requires q.Valid() && q.withParent != null
    modifies q.withParent.Repr
    ensures q.Wired() && fresh(q.withParent.Repr - old(q.withParent.Repr))
    ensures q.withParent.spec == Applied(old(q.withParent.spec), e)
    ensures q.own.steps == old(q.own.steps) && SpecOf(q.withChildren) == old(SpecOf(q.withChildren))
    ensures {q} + q.own.Repr + Footprint(q.withChildren) <= old(q.Repr)
    decreases e, 2
  {
    Apply(q.withParent, e);
  }

  method ApplyInChildren(q: Query, e: Edit)
    requires q.Valid() && q.withChildren != null
    modifies q.Repr
    ensures q.Valid() && fresh(q.Repr - old(q.Repr))
    ensures q.spec == old(q.spec).(withChildren := Some(Applied(old(q.spec.withChildren.value), e)))
    decreases e, 3
  {
    ApplyToChildren(q, e);
    q.Summarize();
  }

  // The nested query changes; everything else q refers to stays, and apart from it.
  method ApplyToChildren(q: Query, e: Edit)
    requires q.Valid() && q.withChildren != null
    modifies q.withChildren.Repr
    ensures q.Wired() && fresh(q.withChildren.Repr - old(q.withChildren.Repr))
    ensures q.withChildren.spec == Applied(old(q.withChildren.spec), e)
    ensures q.own.steps == old(q.own.steps) && SpecOf(q.withParent) == old(SpecOf(q.withParent))
    ensures {q} + q.own.Repr + Footprint(q.withParent) <= old(q.Repr)
    decreases e, 2
  {
    Apply(q.withChildren, e);
  }

  method ApplyAll(q: Query, edits: seq<Edit>)
    requires q.Valid()
    modifies q.Repr
    ensures q.Valid() && fresh(q.Repr - old(q.Repr)) && q.spec == AppliedAll(old(q.spec), edits)
    decreases edits, 1
  {
    if |edits| > 0 {
      Apply(q, edits[0]);
      ApplyAll(q, edits[1..]);
    }
  }

  // The edits of an interleaving that go to one of the two queries.
  function Share(edits: seq<(bool, Edit)>, who: bool): seq<Edit> {
    if edits == [] then []
    else if edits[0].0 == who then [edits[0].1] + Share(edits[1..], who)
    else Share(edits[1..], who)
  }

  // A further edit comes last for the query it goes to, and does not reach the other.
  lemma {:induction false} ShareMeans(edits: seq<(bool, Edit)>, last: (bool, Edit), who: bool)
    ensures Share([], who) == []
    ensures Share(edits + [last], who) == if last.0 == who then Share(edits, who) + [last.1] else Share(edits, who)
  {
    if edits == [] {
      assert [] + [last] == [last] && [last][1..] == [];
    } else {
      assert (edits + [last])[1..] == edits[1..] + [last];
      ShareMeans(edits[1..], last, who);
    }
  }

  // One edit of the interleaving: the other query stays as it is.
  method ApplyToOne(a: Query, b: Query, edit: Edit)
    requires a.Valid() && b.Valid() && a.Repr !! b.Repr
    modifies a.Repr
    ensures a.Valid() && b.Valid() && a.Repr !! b.Repr && fresh(a.Repr - old(a.Repr)) && b.Repr == old(b.Repr)
    ensures a.spec == Applied(old(a.spec), edit) && b.spec == old(b.spec)
  {
    Apply(a, edit);
  }

  method ApplyInterleaved(a: Query, b: Query, edits: seq<(bool, Edit)>)
    requires a.Valid() && b.Valid() && a.Repr !! b.Repr
    modifies a.Repr, b.Repr
    ensures a.Valid() && b.Valid() && a.Repr !! b.Repr
    ensures a.spec == AppliedAll(old(a.spec), Share(edits, true))
    ensures b.spec == AppliedAll(old(b.spec), Share(edits, false))
    decreases edits
  {
    if |edits| > 0 {
      if edits[0].0 {
        ApplyToOne(a, b, edits[0].1);
      } else {
        ApplyToOne(b, a, edits[0].1);
      }
      ApplyInterleaved(a, b, edits[1..]);
    }
  }

  /**
   Clone independence: after Clone, however edits of the original and of the clone are interleaved, each of the two
   ends exactly as if the other had never been touched.
   */
  method CloneThenEdit(q: Query, edits: seq<(bool, Edit)>) returns (c: Query)
    requires q.Valid()
    modifies q.Repr
    ensures q.Valid() && c.Valid() && q.Repr !! c.Repr
    ensures q.spec == AppliedAll(old(q.spec), Share(edits, true))
    ensures c.spec == AppliedAll(Cloned(old(q.spec)), Share(edits, false))
  {
    c := Clone(q);
    ApplyInterleaved(q, c, edits);
  }
}
