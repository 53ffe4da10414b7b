/**
 AccountCreateBulk.Save of backend/ent/account_create.go: n mutators, each wrapped in its builder's hooks, the
 innermost of which issues one batch for all of them.

 A hook is whatever it decides to do next, given what it has seen so far: write to a mutation, call the next mutator,
 or return. Mutations are objects shared by reference; what matters of them is their fields. Fuel bounds the number of
 actions that are followed, so each statement covers every finite prefix of every run; None means the run was cut short.
 */
module BulkCreate {
  import opened Wrappers
  import AccountCreate

  type Fields = AccountCreate.Values
  type Store = nat -> Fields

  // What a mutator is called with: an AccountMutation, by reference, or a mutation of some other type.
  datatype MutationArg = Mutation(ref: nat) | Foreign

  datatype Reply = Failed | Node(node: nat)

  // What a hook has seen since it was called.
  datatype Event = Called(arg: MutationArg) | Replied(reply: Reply) | Wrote

  datatype Action = Return(reply: Reply) | Next(arg: MutationArg) | Write(ref: nat, fields: Fields)

  type Hook = (seq<Event>, Store) -> Action

  datatype Builder = Builder(mutation: nat, hooks: seq<Hook>)

  // sqlgraph.CreateSpec: the fields createSpec copied, and the ID the insert filled in.
  datatype CreateSpec = CreateSpec(fields: Fields, id: Option<int>)

  // What the driver answers to the t-th batch: an error, or an optional ID per row.
  datatype BatchReply = BatchFailed | Created(ids: seq<Option<int>>)

  ghost predicate Filled(specs: seq<Option<CreateSpec>>) { forall k :: 0 <= k < |specs| ==> specs[k].Some? }

  // The hook that only hands its mutation on and returns what it gets.
  ghost predicate PassesThrough(hook: Hook) {
    && (forall store: Store, arg: MutationArg :: hook([Called(arg)], store) == Next(arg))
    && forall store: Store, arg: MutationArg, reply: Reply ::
      hook([Called(arg), Replied(reply)], store) == Return(reply)
  }

  // The hook that, whenever it calls next, hands on what it was called with. It may write first, call next any number
  // of times, and return anything.
  ghost predicate HandsOn(hook: Hook) {
    forall seen: seq<Event>, store: Store, arg: MutationArg ::
      seen != [] && seen[0] == Called(arg) && hook(seen, store).Next? ==> hook(seen, store) == Next(arg)
  }

  ghost predicate HasReply(seen: seq<Event>) { exists n :: 0 <= n < |seen| && seen[n].Replied? }

  // The hook that calls next at most once: after a reply it never does.
  ghost predicate CallsOnce(hook: Hook) {
    forall seen: seq<Event>, store: Store :: HasReply(seen) ==> !hook(seen, store).Next?
  }

  lemma ReplySeen(seen: seq<Event>, reply: Reply)
    ensures HasReply(seen + [Replied(reply)])
  {
    assert (seen + [Replied(reply)])[|seen|].Replied?;
  }

  lemma NoReplySeen(seen: seq<Event>)
    ensures HasReply(seen + [Wrote]) <==> HasReply(seen)
  {
    if HasReply(seen) {
      var n :| 0 <= n < |seen| && seen[n].Replied?;
      assert (seen + [Wrote])[n].Replied?;
    }
  }

  // The parts of the state the statements below speak of.
  datatype Snapshot = Snapshot(store: Store, current: seq<nat>, specs: seq<Option<CreateSpec>>,
                               nodes: seq<Option<Option<int>>>, done: set<nat>, log: seq<seq<Option<CreateSpec>>>)

  function IdAt(ids: seq<Option<int>>, k: nat): Option<int> { if k < |ids| then ids[k] else None }

  class Bulk {
    const builders: seq<Builder>
    const checks: Fields -> bool
    const batch: nat -> BatchReply

    var store: Store                          // the mutation objects
    var current: seq<nat>                     // builder.mutation of each builder
    var specs: seq<Option<CreateSpec>>
    var nodes: seq<Option<Option<int>>>       // created nodes with their IDs
    var done: set<nat>                        // mutations with done == true
    ghost var log: seq<seq<Option<CreateSpec>>>   // arguments of the BatchCreate calls so far
    var calls: nat

    ghost predicate Valid()
      reads this
    {
      && |current| == |specs| == |nodes| == |builders|
      && calls == |log|
      && forall t :: 0 <= t < |log| ==> |log[t]| == |builders| && Filled(log[t])
    }

    constructor (builders: seq<Builder>, store: Store, checks: Fields -> bool, batch: nat -> BatchReply)
      ensures Valid() && log == [] && done == {} && this.store == store
      ensures this.builders == builders && this.checks == checks && this.batch == batch
      ensures forall k :: 0 <= k < |builders| ==> current[k] == builders[k].mutation && specs[k].None?
    {
      this.builders, this.checks, this.batch := builders, checks, batch;
      this.store, done, log, calls := store, {}, [], 0;
      current := seq(|builders|, k requires 0 <= k < |builders| => builders[k].mutation);
      specs := seq(|builders|, _ => None);
      nodes := seq(|builders|, _ => None);
    }

    // What no call takes back: filled slots stay filled, issued batches stay issued, done mutations stay done.
    twostate predicate Grows()
      reads this
    {
      && |specs| == old(|specs|)
      && (forall k :: 0 <= k < |specs| && old(specs)[k].Some? ==> specs[k].Some?)
      && old(log) <= log && old(done) <= done
    }

    // What mutator i leaves alone: the builders before it.
    twostate predicate KeepsBelow(i: nat)
      reads this
    {
      && |current| == old(|current|) && |specs| == old(|specs|) && |nodes| == old(|nodes|)
      && (forall k :: 0 <= k < i && k < |current| ==> current[k] == old(current)[k])
      && (forall k :: 0 <= k < i && k < |nodes| ==> nodes[k] == old(nodes)[k])
      && forall k :: 0 <= k < i && k < |specs| && old(specs)[k].Some? ==>
        specs[k].Some? && specs[k].value.fields == old(specs)[k].value.fields
    }

    // Every row has passed check.
    ghost predicate RowsChecked(rows: seq<Option<CreateSpec>>) {
      forall k :: 0 <= k < |rows| && rows[k].Some? ==> checks(rows[k].value.fields)
    }

    // The rows so far and those of every batch.
    ghost predicate Checked()
      reads this
    {
      RowsChecked(specs) && forall t :: 0 <= t < |log| ==> RowsChecked(log[t])
    }

    // sqlgraph.BatchCreate: records its argument and, when it succeeds, fills in the IDs it got.
    method BatchCreate() returns (ok: bool)
      requires Valid() && Filled(specs)
      modifies this`log, this`calls, this`specs
      ensures Valid() && Grows() && log == old(log) + [old(specs)]
      ensures ok <==> batch(|old(log)|).Created?
      ensures !ok ==> specs == old(specs)
      ensures ok ==> forall k :: 0 <= k < |specs| ==>
        specs[k] == Some(old(specs)[k].value.(id := IdAt(batch(|old(log)|).ids, k)))
      ensures ok ==> forall k :: 0 <= k < |specs| ==>
        specs[k].value.id == if k < |batch(|old(log)|).ids| then batch(|old(log)|).ids[k] else None
    {
      log := log + [specs];
      var reply := batch(calls);
      calls := calls + 1;
      ok := reply.Created?;
      if ok {
        var sent := specs;
        specs := seq(|sent|, k requires 0 <= k < |sent| && sent[k].Some? =>
          Some(sent[k].value.(id := IdAt(reply.ids, k))));
      }
    }

    ghost predicate AllPass() {
      forall k, t :: 0 <= k < |builders| && 0 <= t < |builders[k].hooks| ==> PassesThrough(builders[k].hooks[t])
    }

    ghost predicate AllHandOn() {
      forall k, t :: 0 <= k < |builders| && 0 <= t < |builders[k].hooks| ==> HandsOn(builders[k].hooks[t])
    }

    ghost predicate AllCallOnce() {
      forall k, t :: 0 <= k < |builders| && 0 <= t < |builders[k].hooks| ==> CallsOnce(builders[k].hooks[t])
    }

    ghost function Now(): Snapshot
      reads this
    {
      Snapshot(store, current, specs, nodes, done, log)
    }

    // Fuel that suffices when hooks pass through.
    ghost function Need(i: nat, j: nat): nat
      requires i < |builders| && j <= |builders[i].hooks|
      decreases |builders| - i, |builders[i].hooks| - j
    {
      if j < |builders[i].hooks| then 2 + Need(i, j + 1)
      else if i < |builders| - 1 then 1 + Need(i + 1, 0)
      else 1
    }

    // Whether builders i and up all pass check, on the mutations they hold.
    ghost predicate ChecksFrom(s: Snapshot, i: nat) {
      |s.current| == |builders| && forall k :: i <= k < |builders| ==> checks(s.store(s.current[k]))
    }

    // The argument of the batch: builder order, and from builder i on the specs of the mutations they hold.
    ghost predicate InOrder(s: Snapshot, i: nat, specs: seq<Option<CreateSpec>>) {
      && |specs| == |s.current| == |s.specs| == |builders|
      && forall k :: 0 <= k < |specs| ==>
        specs[k] == if k < i then s.specs[k] else Some(CreateSpec(s.store(s.current[k]), None))
    }

    /**
     What builders i and up do together when their hooks pass through: nothing at all if a check fails; otherwise one
     batch with their specs in builder order, after which, if it succeeded, exactly their mutations are done.
     */
    ghost predicate Passed(s: Snapshot, i: nat, ok: bool, t: Snapshot) {
      && t.store == s.store && t.current == s.current && |s.current| == |builders|
      && if !ChecksFrom(s, i) then !ok && t.log == s.log && t.done == s.done
         else
           && |t.log| == |s.log| + 1 && t.log[..|s.log|] == s.log && InOrder(s, i, t.log[|s.log|])
           && ok == batch(|s.log|).Created?
           && if ok then t.done == s.done + HeldFrom(s, i) && IdsFilled(s, i, batch(|s.log|).ids, t)
             else t.done == s.done
    }

    // Every row's ID reached its spec, and from builder i on its node; earlier nodes are untouched so far.
    ghost predicate IdsFilled(s: Snapshot, i: nat, ids: seq<Option<int>>, t: Snapshot) {
      && |t.nodes| == |t.specs| == |s.nodes| == |builders|
      && (forall k :: 0 <= k < |builders| ==> t.specs[k].Some? && t.specs[k].value.id == IdAt(ids, k))
      && forall k :: 0 <= k < |builders| ==> t.nodes[k] == if k < i then s.nodes[k] else Some(IdAt(ids, k))
    }

    ghost function HeldFrom(s: Snapshot, i: nat): set<nat>
      requires |s.current| == |builders|
    {
      set k | i <= k < |builders| :: s.current[k]
    }

    // It refuses a mutation of some other type, and a builder that does not pass check: the mutation checked is the one
    // the builder holds, not the one it is called with.
    predicate Refuses(arg: MutationArg, store: Store, current: seq<nat>, i: nat)
      requires i < |current|
    {
      arg.Foreign? || !checks(store(current[i]))
    }

    // The batch that follows when the innermost mutator of the last builder is called, unless it refuses.
    ghost function BatchOf(s: Snapshot, arg: MutationArg): Option<seq<Option<CreateSpec>>>
      requires 0 < |builders| == |s.current| == |s.specs|
    {
      var last := |builders| - 1;
      if Refuses(arg, s.store, s.current, last) then None
      else Some(s.specs[last := Some(CreateSpec(s.store(arg.ref), None))])
    }

    // The same when its innermost hook, having seen this, is about to call it.
    ghost function NextBatch(s: Snapshot, i: nat, j: nat, seen: seq<Event>): Option<seq<Option<CreateSpec>>>
      requires i < |builders| == |s.current| == |s.specs| && j < |builders[i].hooks|
    {
      var action := builders[i].hooks[j](seen, s.store);
      if i == |builders| - 1 && j == |builders[i].hooks| - 1 && action.Next? then BatchOf(s, action.arg) else None
    }

    // mutators[i] from its j-th hook inwards.
    method Mutate(i: nat, j: nat, arg: MutationArg, fuel: nat) returns (reply: Option<Reply>)
      requires Valid() && i < |builders| && j <= |builders[i].hooks|
      requires forall k :: 0 <= k < i ==> specs[k].Some?
      modifies this
      ensures Valid() && Grows() && KeepsBelow(i)
      ensures AllHandOn() && arg == Mutation(old(current)[i]) && old(Checked()) ==> Checked() && current == old(current)
      ensures AllCallOnce() ==> |log| <= |old(log)| + 1
      ensures AllPass() && arg == Mutation(old(current)[i]) && fuel >= Need(i, j) ==>
        reply.Some? && reply.value in {Node(i), Failed} && Passed(old(Now()), i, reply.value.Node?, Now())
      ensures i == |builders| - 1 && j == |builders[i].hooks| && fuel > 0 && BatchOf(old(Now()), arg).Some? ==>
        log == old(log) + [BatchOf(old(Now()), arg).value]
      decreases fuel, 1
    {
      if fuel == 0 {
        return None;
      }
      if j < |builders[i].hooks| {
        reply := RunHook(i, j, arg, fuel - 1);
      } else {
        reply := Create(i, arg, fuel - 1);
      }
    }

    // The j-th hook of builder i, from its call.
    method RunHook(i: nat, j: nat, arg: MutationArg, fuel: nat) returns (reply: Option<Reply>)
      requires Valid() && i < |builders| && j < |builders[i].hooks|
      requires forall k :: 0 <= k < i ==> specs[k].Some?
      modifies this
      ensures Valid() && Grows() && KeepsBelow(i)
      ensures AllHandOn() && arg == Mutation(old(current)[i]) && old(Checked()) ==> Checked() && current == old(current)
      ensures AllCallOnce() ==> |log| <= |old(log)| + 1
      ensures AllPass() && arg == Mutation(old(current)[i]) && fuel + 1 >= Need(i, j) ==>
        reply.Some? && reply.value in {Node(i), Failed} && Passed(old(Now()), i, reply.value.Node?, Now())
      ensures fuel > 1 && NextBatch(old(Now()), i, j, [Called(arg)]).Some? ==>
        old(log) + [NextBatch(old(Now()), i, j, [Called(arg)]).value] <= log
      decreases fuel, 2
    {
      reply := Follow(i, j, arg, [Called(arg)], fuel);
    }

    // The rest of it, given what the hook has seen: one action after another.
    method Follow(i: nat, j: nat, arg: MutationArg, seen: seq<Event>, left: nat) returns (reply: Option<Reply>)
      requires Valid() && i < |builders| && j < |builders[i].hooks| && seen != [] && seen[0] == Called(arg)
      requires forall k :: 0 <= k < i ==> specs[k].Some?
      modifies this
      ensures Valid() && Grows() && KeepsBelow(i)
      ensures AllHandOn() && arg == Mutation(old(current)[i]) && old(Checked()) ==> Checked() && current == old(current)
      ensures AllCallOnce() ==> |log| <= |old(log)| + if HasReply(seen) then 0 else 1
      ensures AllPass() && arg == Mutation(old(current)[i]) && seen == [Called(arg)] && left + 1 >= Need(i, j) ==>
        reply.Some? && reply.value in {Node(i), Failed} && Passed(old(Now()), i, reply.value.Node?, Now())
      ensures AllPass() && left > 0 && |seen| == 2 && seen[1].Replied? ==>
        reply == Some(seen[1].reply) && Now() == old(Now())
      ensures left > 1 && NextBatch(old(Now()), i, j, seen).Some? ==>
        old(log) + [NextBatch(old(Now()), i, j, seen).value] <= log
      decreases left, 1
    {
      if left == 0 {
        return None;
      }
      var hook := builders[i].hooks[j];
      assert (AllPass() ==> PassesThrough(hook)) && (AllCallOnce() ==> CallsOnce(hook));
      assert |seen| == 1 ==> seen == [Called(arg)];
      assert |seen| == 2 && seen[1].Replied? ==> seen == [Called(arg), Replied(seen[1].reply)];
      assert AllHandOn() && hook(seen, store).Next? ==> HandsOn(hook) && hook(seen, store) == Next(arg);
      match hook(seen, store)
      case Return(r) =>
        reply := Some(r);
      case Next(m) =>
        reply := CallNext(i, j, arg, seen, m, left - 1);
      case Write(ref, fields) =>
        WriteTo(ref, fields);
        NoReplySeen(seen);
        reply := Follow(i, j, arg, seen + [Wrote], left - 1);
    }

    // The hook calls next with m, sees the answer, and goes on.
    method CallNext(i: nat, j: nat, arg: MutationArg, seen: seq<Event>, m: MutationArg, left: nat)
      returns (reply: Option<Reply>)
      requires Valid() && i < |builders| && j < |builders[i].hooks| && seen != [] && seen[0] == Called(arg)
      requires forall k :: 0 <= k < i ==> specs[k].Some?
      requires AllHandOn() || (AllPass() && |seen| == 1) ==> m == arg
      requires AllCallOnce() ==> !HasReply(seen)
      modifies this
      ensures Valid() && Grows() && KeepsBelow(i)
      ensures AllHandOn() && arg == Mutation(old(current)[i]) && old(Checked()) ==> Checked() && current == old(current)
      ensures AllCallOnce() ==> |log| <= |old(log)| + 1
      ensures AllPass() && arg == Mutation(old(current)[i]) && |seen| == 1 && left + 2 >= Need(i, j) ==>
        reply.Some? && reply.value in {Node(i), Failed} && Passed(old(Now()), i, reply.value.Node?, Now())
      ensures i == |builders| - 1 && j == |builders[i].hooks| - 1 && left > 0 && BatchOf(old(Now()), m).Some? ==>
        old(log) + [BatchOf(old(Now()), m).value] <= log
      decreases left, 2
    {
      reply := Mutate(i, j + 1, m, left);
      if reply.Some? {
        ReplySeen(seen, reply.value);
        reply := Follow(i, j, arg, seen + [Replied(reply.value)], left);
      }
    }

    // A hook sets fields of a mutation.
    method WriteTo(ref: nat, fields: Fields)
      requires Valid()
      modifies this`store
      ensures Valid() && store(ref) == fields && forall r :: r != ref ==> store(r) == old(store)(r)
    {
      var held := store;
      store := (r: nat) => if r == ref then fields else held(r);
    }

    // The innermost mutator of builder i.
    method Create(i: nat, arg: MutationArg, fuel: nat) returns (reply: Option<Reply>)
      requires Valid() && i < |builders|
      requires forall k :: 0 <= k < i ==> specs[k].Some?
      modifies this
      ensures Valid() && Grows() && KeepsBelow(i)
      ensures AllHandOn() && arg == Mutation(old(current)[i]) && old(Checked()) ==> Checked() && current == old(current)
      ensures AllCallOnce() ==> |log| <= |old(log)| + 1
      ensures AllPass() && arg == Mutation(old(current)[i]) && fuel + 1 >= Need(i, |builders[i].hooks|) ==>
        reply.Some? && reply.value in {Node(i), Failed} && Passed(old(Now()), i, reply.value.Node?, Now())
      ensures arg.Foreign? || !checks(old(store(current[i]))) ==> reply == Some(Failed) && Now() == old(Now())
      ensures arg.Mutation? && checks(old(store(current[i]))) ==>
        current[i] == arg.ref && specs[i].Some? && specs[i].value.fields == old(store)(arg.ref)
      ensures i == |builders| - 1 && BatchOf(old(Now()), arg).Some? ==>
        log == old(log) + [BatchOf(old(Now()), arg).value]
      ensures reply.Some? && reply.value.Node? ==>
        reply.value.node == i && arg.Mutation? && arg.ref in done && nodes[i] == Some(specs[i].value.id)
      decreases fuel, 4
    {
      if arg.Foreign? || !checks(store(current[i])) {
        return Some(Failed);
      }
      reply := Insert(i, arg.ref, fuel);
    }

    // The rest of it, once check has passed: the builder takes over the mutation, and its spec is filled in.
    method Insert(i: nat, ref: nat, fuel: nat) returns (reply: Option<Reply>)
      requires Valid() && i < |builders| && checks(store(current[i]))
      requires forall k :: 0 <= k < i ==> specs[k].Some?
      modifies this
      ensures Valid() && Grows() && KeepsBelow(i)
      ensures AllHandOn() && ref == old(current)[i] && old(Checked()) ==> Checked() && current == old(current)
      ensures AllCallOnce() ==> |log| <= |old(log)| + 1
      ensures AllPass() && ref == old(current)[i] && fuel + 1 >= Need(i, |builders[i].hooks|) ==>
        reply.Some? && reply.value in {Node(i), Failed} && Passed(old(Now()), i, reply.value.Node?, Now())
      ensures current[i] == ref && specs[i].Some? && specs[i].value.fields == old(store)(ref)
      ensures i == |builders| - 1 ==> log == old(log) + [old(specs)[i := Some(CreateSpec(old(store)(ref), None))]]
      ensures reply.Some? && reply.value.Node? ==>
        reply.value.node == i && ref in done && nodes[i] == Some(specs[i].value.id)
      decreases fuel, 3
    {
      TakeOver(i, ref);
      ghost var taken := Now();
      var ok := Continue(i, fuel);
      ghost var continued := Now();
      if ok.None? {
        return None;
      }
      reply := Some(Failed);
      if ok.value {
        Settle(i, ref);
        reply := Some(Node(i));
      }
      if AllPass() && ref == old(current)[i] && fuel + 1 >= Need(i, |builders[i].hooks|) {
        PassedOneMore(old(Now()), taken, continued, Now(), i, ok.value);
      }
    }

    // What builder i adds to what the builders after it do.
    lemma PassedOneMore(s: Snapshot, taken: Snapshot, u: Snapshot, t: Snapshot, i: nat, ok: bool)
      requires i < |s.current| == |s.specs| == |s.nodes| == |builders| && checks(s.store(s.current[i]))
      requires taken == s.(nodes := s.nodes[i := Some(None)],
                           specs := s.specs[i := Some(CreateSpec(s.store(s.current[i]), None))])
      requires Passed(taken, i + 1, ok, u) && i < |u.nodes| && i < |u.specs| && u.specs[i].Some?
      requires t == if !ok then u
                    else u.(nodes := u.nodes[i := Some(u.specs[i].value.id)], done := u.done + {s.current[i]})
      ensures Passed(s, i, ok, t)
    {
      assert ChecksFrom(taken, i + 1) <==> ChecksFrom(s, i);
      assert HeldFrom(s, i) == HeldFrom(s, i + 1) + {s.current[i]};
    }

    // The builder holds the mutation from now on, and has its node and its spec.
    method TakeOver(i: nat, ref: nat)
      requires Valid() && i < |builders|
      modifies this`current, this`nodes, this`specs
      ensures Valid() && current == old(current)[i := ref] && nodes == old(nodes)[i := Some(None)]
      ensures specs == old(specs)[i := Some(CreateSpec(store(ref), None))]
      ensures ref == old(current)[i] && checks(store(ref)) && old(Checked()) ==> Checked() && current == old(current)
    {
      current := current[i := ref];
      nodes := nodes[i := Some(None)];
      specs := specs[i := Some(CreateSpec(store(ref), None))];
    }

    // The node gets its ID, and the mutation is done.
    method Settle(i: nat, ref: nat)
      requires Valid() && i < |builders| && specs[i].Some? && nodes[i] == Some(None)
      modifies this`nodes, this`done
      ensures Valid() && nodes == old(nodes)[i := Some(specs[i].value.id)] && done == old(done) + {ref}
    {
      if specs[i].value.id.Some? {
        nodes := nodes[i := Some(specs[i].value.id)];
      }
      done := done + {ref};
    }

    // The next mutator in the chain, or the batch when there is none.
    method Continue(i: nat, fuel: nat) returns (ok: Option<bool>)
      requires Valid() && i < |builders|
      requires forall k :: 0 <= k <= i ==> specs[k].Some?
      modifies this
      ensures Valid() && Grows() && KeepsBelow(i + 1)
      ensures AllHandOn() && old(Checked()) ==> Checked() && current == old(current)
      ensures i == |builders| - 1 ==> log == old(log) + [old(specs)]
      ensures AllCallOnce() ==> |log| <= |old(log)| + 1
      ensures AllPass() && fuel + 1 >= Need(i, |builders[i].hooks|) ==>
        ok.Some? && Passed(old(Now()), i + 1, ok.value, Now())
      decreases fuel, 2
    {
      if i < |builders| - 1 {
        var r := Mutate(i + 1, 0, Mutation(current[i + 1]), fuel);
        return if r.None? then None else Some(r.value.Node?);
      }
      var created := BatchCreate();
      return Some(created);
    }

    // The mutation objects once defaults ran on the first n builders.
    ghost function Defaulted(before: Store, defaults: Fields -> Fields, n: nat): Store
      requires n <= |builders|
    {
      if n == 0 then before
      else
        var prior, ref := Defaulted(before, defaults, n - 1), builders[n - 1].mutation;
        (r: nat) => if r == ref then defaults(prior(ref)) else prior(r)
    }

    /**
     Save on a fresh bulk: defaults on every builder, then the chain. Whatever the hooks do, every batch is complete
     and comes from filled slots; hooks that call next at most once give at most one batch; hooks that pass through
     give exactly what Passed says of all builders.
     */
    method Save(defaults: Fields -> Fields, fuel: nat) returns (ok: Option<bool>)
      requires Valid() && log == [] && (forall k :: 0 <= k < |builders| ==> current[k] == builders[k].mutation)
      modifies this
      ensures Valid() && forall t :: 0 <= t < |log| ==> |log[t]| == |builders| && Filled(log[t])
      ensures AllCallOnce() ==> |log| <= 1
      ensures AllHandOn() && old(RowsChecked(specs)) ==> forall t :: 0 <= t < |log| ==> RowsChecked(log[t])
      ensures |builders| == 0 ==> ok == Some(true) && log == []
      ensures |builders| > 0 && AllPass() && fuel >= Need(0, 0) ==>
        ok.Some? && Passed(old(Now()).(store := Defaulted(old(store), defaults, |builders|)), 0, ok.value, Now())
    {
      for i := 0 to |builders|
        invariant Valid() && Now() == old(Now()).(store := Defaulted(old(store), defaults, i))
      {
        var held, ref := store, builders[i].mutation;
        store := (r: nat) => if r == ref then defaults(held(ref)) else held(r);
      }
      if |builders| == 0 {
        return Some(true);
      }
      var reply := Mutate(0, 0, Mutation(current[0]), fuel);
      return if reply.None? then None else Some(reply.value.Node?);
    }
  }

  // A hook that hands on another mutation puts it into the batch unchecked: only the builder's own was looked at.
  method UncheckedRow(bulk: Bulk, ref: nat, fuel: nat) returns (reply: Option<Reply>)
    requires bulk.Valid() && |bulk.builders| == 1 && |bulk.builders[0].hooks| == 1 && fuel > 1
    requires bulk.builders[0].hooks[0]([Called(Mutation(bulk.current[0]))], bulk.store) == Next(Mutation(ref))
    requires bulk.checks(bulk.store(bulk.current[0])) && !bulk.checks(bulk.store(ref))
    modifies bulk
    ensures |old(bulk.log)| < |bulk.log| && !bulk.RowsChecked(bulk.log[|old(bulk.log)|])
  {
    ghost var row := Some(CreateSpec(bulk.store(ref), None));
    ghost var batch := bulk.BatchOf(bulk.Now(), Mutation(ref)).value;
    assert batch[0] == row;
    reply := bulk.RunHook(0, 0, Mutation(bulk.current[0]), fuel);
  }

  // ---- Bulk save of accounts: the checks and defaults of AccountCreate ----

  // However many builders share a mutation, it ends with its own defaults.
  lemma {:induction false} DefaultedOnce(bulk: Bulk, rt: AccountCreate.Runtime, before: Store, n: nat, ref: nat)
    requires n <= |bulk.builders|
    ensures var defaults := (m: Fields) => AccountCreate.DefaultsOf(rt, m);
      bulk.Defaulted(before, defaults, n)(ref) ==
      if exists k :: 0 <= k < n && bulk.builders[k].mutation == ref then AccountCreate.DefaultsOf(rt, before(ref))
      else before(ref)
  {
    if n != 0 {
      DefaultedOnce(bulk, rt, before, n - 1, ref);
      AccountCreate.DefaultsTwice(rt, before(ref));
      if bulk.builders[n - 1].mutation == ref {
        assert exists k :: 0 <= k < n && bulk.builders[k].mutation == ref;
      }
    }
  }

  // Every builder's own fields, as they were set, can be saved.
  ghost predicate AllCreatable(bulk: Bulk, rt: AccountCreate.Runtime, before: Store) {
    forall k :: 0 <= k < |bulk.builders| ==> AccountCreate.Creatable(rt, before(bulk.builders[k].mutation))
  }

  lemma ChecksDecide(bulk: Bulk, rt: AccountCreate.Runtime, before: Store, s: Snapshot)
    requires forall m :: bulk.checks(m) <==> AccountCreate.Accepted(rt, m)
    requires s.store == bulk.Defaulted(before, (m: Fields) => AccountCreate.DefaultsOf(rt, m), |bulk.builders|)
    requires |s.current| == |bulk.builders| && forall k :: 0 <= k < |bulk.builders| ==>
      s.current[k] == bulk.builders[k].mutation
    ensures bulk.ChecksFrom(s, 0) <==> AllCreatable(bulk, rt, before)
    ensures forall k :: 0 <= k < |bulk.builders| ==>
      s.store(s.current[k]) == AccountCreate.DefaultsOf(rt, before(bulk.builders[k].mutation))
  {
    forall k | 0 <= k < |bulk.builders|
      ensures s.store(s.current[k]) == AccountCreate.DefaultsOf(rt, before(bulk.builders[k].mutation))
      ensures bulk.checks(s.store(s.current[k])) <==> AccountCreate.Creatable(rt, before(bulk.builders[k].mutation))
    {
      DefaultedOnce(bulk, rt, before, |bulk.builders|, bulk.builders[k].mutation);
      AccountCreate.DefaultsThenCheck(rt, before(bulk.builders[k].mutation));
    }
  }

  // What each builder asks the driver to insert.
  function Rows(builders: seq<Builder>, rt: AccountCreate.Runtime, store: Store): seq<Option<CreateSpec>> {
    seq(|builders|, k requires 0 <= k < |builders| =>
      Some(CreateSpec(AccountCreate.DefaultsOf(rt, store(builders[k].mutation)), None)))
  }

  // Every builder has what a caller has to set.
  ghost predicate AllSuffice(builders: seq<Builder>, rt: AccountCreate.Runtime, store: Store) {
    forall k :: 0 <= k < |builders| ==> AccountCreate.Suffices(rt, store(builders[k].mutation))
  }

  // One row for each builder, in builder order: what was set on it, completed by its defaults, and no ID yet.
  ghost predicate OwnRows(builders: seq<Builder>, rt: AccountCreate.Runtime, store: Store,
                          rows: seq<Option<CreateSpec>>)
  {
    |rows| == |builders| && forall k :: 0 <= k < |rows| ==>
      && rows[k].Some? && rows[k].value.id == None
      && AccountCreate.Completes(rt, store(builders[k].mutation), rows[k].value.fields)
  }

  lemma CreatableIsSufficient(bulk: Bulk, rt: AccountCreate.Runtime, store: Store)
    ensures AllCreatable(bulk, rt, store) <==> AllSuffice(bulk.builders, rt, store)
  {
    forall k | 0 <= k < |bulk.builders|
      ensures AccountCreate.Creatable(rt, store(bulk.builders[k].mutation)) <==>
        AccountCreate.Suffices(rt, store(bulk.builders[k].mutation))
    {
      AccountCreate.CreatableMeans(rt, store(bulk.builders[k].mutation));
    }
  }

  lemma RowsAreOwn(builders: seq<Builder>, rt: AccountCreate.Runtime, store: Store)
    ensures OwnRows(builders, rt, store, Rows(builders, rt, store))
  {
    forall k | 0 <= k < |builders|
      ensures AccountCreate.Completes(rt, store(builders[k].mutation), Rows(builders, rt, store)[k].value.fields)
    {
      AccountCreate.DefaultsMean(rt, store(builders[k].mutation));
    }
  }

  // Bulk save, in terms of what check accepts.
  method SaveChecked(builders: seq<Builder>, store: Store, rt: AccountCreate.Runtime, batch: nat -> BatchReply,
                     fuel: nat)
    returns (bulk: Bulk, ok: Option<bool>)
    ensures bulk.builders == builders
    ensures builders != [] && bulk.AllPass() && fuel >= bulk.Need(0, 0) ==>
      && (ok == Some(true) <==> AllCreatable(bulk, rt, store) && batch(0).Created?)
      && ok.Some? && if AllCreatable(bulk, rt, store) then bulk.log == [Rows(builders, rt, store)] else bulk.log == []
    ensures bulk.AllHandOn() ==> forall t, k :: 0 <= t < |bulk.log| && 0 <= k < |bulk.log[t]| ==>
      bulk.log[t][k].Some? && AccountCreate.Accepted(rt, bulk.log[t][k].value.fields)
  {
    bulk := new Bulk(builders, store, (m: Fields) => AccountCreate.Accepted(rt, m), batch);
    ghost var defaulted := bulk.Defaulted(store, (m: Fields) => AccountCreate.DefaultsOf(rt, m), |builders|);
    ghost var s := bulk.Now().(store := defaulted);
    ChecksDecide(bulk, rt, store, s);
    ok := bulk.Save((m: Fields) => AccountCreate.DefaultsOf(rt, m), fuel);
    if builders != [] && bulk.AllPass() && fuel >= bulk.Need(0, 0) && AllCreatable(bulk, rt, store) {
      assert bulk.log == bulk.log[..0] + [bulk.log[0]];
      assert bulk.log[0] == Rows(builders, rt, store);
    }
  }

  /**
   A bulk save of accounts whose hooks pass through succeeds exactly if every builder has what a caller has to set and
   the driver takes the batch. The driver sees a batch only in the first case: one, with every builder's own fields and
   defaults in builder order. Whatever is handed on unchanged, no row without a required field reaches the driver.
   */
  method SaveAccounts(builders: seq<Builder>, store: Store, rt: AccountCreate.Runtime, batch: nat -> BatchReply,
                      fuel: nat)
    returns (bulk: Bulk, ok: Option<bool>)
    ensures bulk.builders == builders
    ensures builders != [] && bulk.AllPass() && fuel >= bulk.Need(0, 0) ==>
      && (ok == Some(true) <==> AllSuffice(builders, rt, store) && batch(0).Created?)
      && ok.Some?
      && if AllSuffice(builders, rt, store) then |bulk.log| == 1 && OwnRows(builders, rt, store, bulk.log[0])
         else bulk.log == []
    ensures bulk.AllHandOn() ==> forall t, k :: 0 <= t < |bulk.log| && 0 <= k < |bulk.log[t]| ==>
      bulk.log[t][k].Some? && AccountCreate.Complete(rt, bulk.log[t][k].value.fields)
  {
    bulk, ok := SaveChecked(builders, store, rt, batch, fuel);
    CreatableIsSufficient(bulk, rt, store);
    RowsAreOwn(builders, rt, store);
    forall m: Fields ensures AccountCreate.Accepted(rt, m) <==> AccountCreate.Complete(rt, m) {
      AccountCreate.AcceptedMeans(rt, m);
    }
  }
}
