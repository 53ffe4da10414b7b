/**
 The worker pool of tools/openai_oauth_reauth_worker.py on the heap: processes and stop events are objects, the children
 dictionary is a list of entries in insertion order. reconcile_worker_pool (lines 320-335) refines PoolSpec.Reconciled,
 and run_worker_pool (lines 337-362) leaves no process it ever started unjoined.
 */
module WorkerPool {
  import opened Wrappers
  import opened PoolSpec
  import opened SlotIdentity

  // multiprocessing.Event.
  class Flag {
    var isSet: bool

    constructor ()
      ensures !isSet
    {
      isSet := false;
    }
  }

  // multiprocessing.Process. It may exit at any time; join waits for the exit.
  class Process {
    const workerId: string
    var alive: bool
    var joined: bool

    constructor (workerId: string)
      ensures this.workerId == workerId && !alive && !joined
    {
      this.workerId := workerId;
      alive, joined := false, false;
    }
  }

  datatype Entry = Entry(slot: nat, child: Process, stop: Flag)

  predicate Apart(a: Entry, b: Entry) { a.slot != b.slot && a.child != b.child && a.stop != b.stop }

  // No two entries share a slot, a process or a stop flag.
  ghost predicate EntriesDistinct(entries: seq<Entry>) {
    entries == [] || (EntriesDistinct(entries[1..]) && forall e :: e in entries[1..] ==> Apart(entries[0], e))
  }

  lemma {:induction false} OthersApart(entries: seq<Entry>, k: nat)
    requires EntriesDistinct(entries) && k < |entries|
    ensures forall i :: 0 <= i < |entries| && i != k ==> Apart(entries[i], entries[k])
  {
    var rest := entries[1..];
    forall i | 0 <= i < |entries| && i != k ensures Apart(entries[i], entries[k]) {
      if i == 0 {
        assert rest[k - 1] in rest;
      } else if k == 0 {
        assert rest[i - 1] in rest;
      } else {
        OthersApart(rest, k - 1);
        assert rest[i - 1] == entries[i];
      }
    }
  }

  ghost function Children(entries: seq<Entry>): set<Process> { set i | 0 <= i < |entries| :: entries[i].child }

  ghost function Stops(entries: seq<Entry>): set<Flag> { set i | 0 <= i < |entries| :: entries[i].stop }

  // The slots, as PoolSpec sees them.
  ghost function View(entries: seq<Entry>): (ws: seq<Worker>)
    reads Children(entries), Stops(entries)
    ensures |ws| == |entries|
    ensures forall i :: 0 <= i < |entries| ==>
      ws[i] == Worker(entries[i].slot, entries[i].child.alive, entries[i].stop.isSet)
  {
    seq(|entries|, i requires 0 <= i < |entries| reads Children(entries), Stops(entries) =>
      Worker(entries[i].slot, entries[i].child.alive, entries[i].stop.isSet))
  }

  // `del children[slot]`.
  function Without(entries: seq<Entry>, slot: nat): seq<Entry> {
    if entries == [] then []
    else if entries[0].slot == slot then Without(entries[1..], slot)
    else [entries[0]] + Without(entries[1..], slot)
  }

  lemma {:induction false} WithoutNone(entries: seq<Entry>, slot: nat)
    requires forall i :: 0 <= i < |entries| ==> entries[i].slot != slot
    ensures Without(entries, slot) == entries
  {
    if entries != [] {
      WithoutNone(entries[1..], slot);
    }
  }

  predicate Occupied(entries: seq<Entry>, slot: nat) { exists i :: 0 <= i < |entries| && entries[i].slot == slot }

  // The entries without the one at position k.
  function Dropped<T>(items: seq<T>, k: nat): (r: seq<T>)
    requires k < |items|
    ensures |r| == |items| - 1
    ensures forall i :: 0 <= i < k ==> r[i] == items[i]
    ensures forall i :: k < i < |items| ==> r[i - 1] == items[i]
  {
    items[..k] + items[k + 1..]
  }

  // Deleting the slot of an entry takes out that entry only.
  lemma {:induction false} WithoutExact(entries: seq<Entry>, k: nat)
    requires EntriesDistinct(entries) && k < |entries|
    ensures Without(entries, entries[k].slot) == Dropped(entries, k)
  {
    var rest := entries[1..];
    if k == 0 {
      OthersApart(entries, 0);
      WithoutNone(rest, entries[0].slot);
      assert Dropped(entries, 0) == rest;
    } else {
      assert rest[k - 1] in rest;
      WithoutExact(rest, k - 1);
      assert Dropped(entries, k) == [entries[0]] + Dropped(rest, k - 1);
    }
  }

  lemma {:induction false} DroppedDistinct(entries: seq<Entry>, k: nat)
    requires EntriesDistinct(entries) && k < |entries|
    ensures EntriesDistinct(Dropped(entries, k))
  {
    var rest := entries[1..];
    if k == 0 {
      assert Dropped(entries, 0) == rest;
    } else {
      DroppedDistinct(rest, k - 1);
      var fewer := Dropped(rest, k - 1);
      assert Dropped(entries, k)[1..] == fewer;
      forall i | 0 <= i < |fewer| ensures fewer[i] in rest {
        assert fewer[i] == rest[if i < k - 1 then i else i + 1];
      }
    }
  }

  // The entry at position i, seen in the shorter list.
  lemma DroppedAt(entries: seq<Entry>, k: nat, i: nat)
    requires k < |entries| && i < |entries| && i != k
    ensures entries[i].child in Children(Dropped(entries, k))
  {
    var rest := Dropped(entries, k);
    var at := if i < k then i else i - 1;
    assert rest[at] == entries[i];
  }

  lemma DroppedFrom(entries: seq<Entry>, k: nat, i: nat)
    requires EntriesDistinct(entries) && k < |entries| && i < |Dropped(entries, k)|
    ensures Dropped(entries, k)[i].child in Children(entries) - {entries[k].child}
    ensures Dropped(entries, k)[i].stop in Stops(entries)
  {
    OthersApart(entries, k);
    var at := if i < k then i else i + 1;
    assert Dropped(entries, k)[i] == entries[at];
  }

  lemma DroppedHeld(entries: seq<Entry>, k: nat)
    requires EntriesDistinct(entries) && k < |entries|
    ensures Children(Dropped(entries, k)) == Children(entries) - {entries[k].child}
    ensures Stops(Dropped(entries, k)) <= Stops(entries)
  {
    var rest := Dropped(entries, k);
    forall i | 0 <= i < |entries| && i != k ensures entries[i].child in Children(rest) {
      DroppedAt(entries, k, i);
    }
    forall i | 0 <= i < |rest|
      ensures rest[i].child in Children(entries) - {entries[k].child} && rest[i].stop in Stops(entries)
    {
      DroppedFrom(entries, k, i);
    }
  }

  lemma {:induction false} AppendedDistinct(entries: seq<Entry>, e: Entry)
    requires EntriesDistinct(entries) && forall x :: x in entries ==> Apart(x, e)
    ensures EntriesDistinct(entries + [e])
  {
    if entries != [] {
      AppendedDistinct(entries[1..], e);
      assert (entries + [e])[1..] == entries[1..] + [e];
    }
  }

  lemma AppendedHeld(entries: seq<Entry>, e: Entry)
    ensures Children(entries + [e]) == Children(entries) + {e.child}
    ensures Stops(entries + [e]) == Stops(entries) + {e.stop}
  {
    var all := entries + [e];
    assert all[|entries|] == e;
    forall i | 0 <= i < |entries| ensures entries[i].child in Children(all) && entries[i].stop in Stops(all) {
      assert all[i] == entries[i];
    }
  }

  // One round of the first loop, on the entries: the next item stands right after those kept.
  lemma KeptStep(items: seq<Entry>, ws: seq<Worker>, i: nat)
    requires i < |items| == |ws|
    ensures var now, k := Kept(items, ws, i) + items[i..], |Kept(items, ws, i)|;
      && k < |now| && now[k] == items[i]
      && Dropped(now, k) == Kept(items, ws, i) + items[i + 1..]
      && Kept(items, ws, i + 1) + items[i + 1..] == if ws[i].alive then now else Dropped(now, k)
  {
    assert items[i..] == [items[i]] + items[i + 1..];
  }

  ghost predicate Shows(entries: seq<Entry>, ws: seq<Worker>)
    reads Children(entries), Stops(entries)
  {
    |ws| == |entries| && forall i :: 0 <= i < |entries| ==>
      ws[i] == Worker(entries[i].slot, entries[i].child.alive, entries[i].stop.isSet)
  }

  lemma {:induction false} KeptShows(entries: seq<Entry>, ws: seq<Worker>, n: nat)
    requires Shows(entries, ws) && n <= |ws|
    ensures Shows(Kept(entries, ws, n), Kept(ws, ws, n))
    ensures forall e :: e in Kept(entries, ws, n) ==> e in entries
  {
    if n > 0 {
      KeptShows(entries, ws, n - 1);
    }
  }

  // Where the first loop stops, the entries show what PoolSpec.Reap leaves.
  lemma ReapEnds(items: seq<Entry>, ws: seq<Worker>, i: nat, entries: seq<Entry>)
    requires Shows(items, ws) && i <= |ws| && forall k :: 0 <= k < i ==> !Crashed(ws[k])
    requires i < |ws| ==> Crashed(ws[i]) && entries == Kept(items, ws, i) + items[i + 1..]
    requires i == |ws| ==> entries == Kept(items, ws, i)
    ensures PoolSpec.Reap(ws).raised == (i < |ws|) && Shows(entries, PoolSpec.Reap(ws).workers)
  {
    KeptShows(items, ws, i);
    assert FirstCrash(ws) == i;
  }

  lemma ShowsIsView(entries: seq<Entry>, ws: seq<Worker>)
    ensures Shows(entries, ws) <==> View(entries) == ws
  {}

  class Pool {
    const workerId: string
    var children: seq<Entry>
    // Every process the pool ever started, and the stop flags made for them.
    ghost var started: set<Process>
    ghost var flags: set<Flag>

    constructor (workerId: string)
      ensures Valid() && this.workerId == workerId && children == [] && started == {} && flags == {}
    {
      this.workerId := workerId;
      children, started, flags := [], {}, {};
    }

    // A started process is either joined, and then it has exited, or held by exactly one entry, under its slot's own
    // id.
    ghost predicate Valid()
      reads this, started
    {
      && EntriesDistinct(children)
      && Children(children) <= started
      && Stops(children) <= flags
      && (forall p <- started :: p.joined <==> p !in Children(children))
      && (forall p <- started :: p.joined ==> !p.alive)
      && (forall i :: 0 <= i < |children| ==> children[i].child.workerId == SlotId(workerId, children[i].slot))
    }

    ghost function Workers(): seq<Worker>
      reads this, Children(children), Stops(children)
    {
      View(children)
    }

    // The environment: the process in the slot, if any, exits.
    method ProcessExits(slot: nat)
      requires Valid()
      modifies Children(children)`alive
      ensures Valid()
      ensures Workers() == Exiting(old(Workers()), slot)
    {
      ghost var ws := Workers();
      for i := 0 to |children|
        invariant forall k :: 0 <= k < i ==>
          children[k].child.alive == (ws[k].alive && children[k].slot != slot)
        invariant forall k :: i <= k < |children| ==> children[k].child.alive == ws[k].alive
        invariant forall p <- started :: p.joined ==> !p.alive
      {
        assert children[i].child in Children(children);
        OthersApart(children, i);
        if children[i].slot == slot {
          children[i].child.alive := false;
        }
      }
      assert Workers() == Exiting(ws, slot);
    }

    // child.join() of an exited child, and `del children[slot]`.
    method Release(e: Entry, ghost k: nat)
      requires Valid() && k < |children| && children[k] == e && !e.child.alive
      modifies this`children, e.child`joined
      ensures Valid()
      ensures children == Dropped(old(children), k)
    {
      WithoutExact(children, k);
      DroppedDistinct(children, k);
      DroppedHeld(children, k);
      e.child.joined := true;
      children := Without(children, e.slot);
    }

    // The first loop of reconcile_worker_pool has dealt with the first i of the items it copied.
    ghost predicate Reaping(items: seq<Entry>, ws: seq<Worker>, i: nat)
      reads this, started, Children(items), Stops(items)
    {
      && Valid()
      && Shows(items, ws) && i <= |items| && Children(items) <= started
      && children == Kept(items, ws, i) + items[i..]
      && forall k :: 0 <= k < i ==> !Crashed(ws[k])
    }

    // One round: an exited process is joined and leaves the pool, and it is an error if nobody had asked it to exit.
    method ReapRound(items: seq<Entry>, ghost ws: seq<Worker>, i: nat) returns (crashed: bool)
      requires i < |items| && Reaping(items, ws, i)
      modifies this`children, items[i].child`joined
      ensures crashed == Crashed(ws[i])
      ensures !crashed ==> Reaping(items, ws, i + 1)
      ensures crashed ==> Valid() && Shows(items, ws) && children == Kept(items, ws, i) + items[i + 1..]
    {
      KeptStep(items, ws, i);
      if !items[i].child.alive {
        Release(items[i], |Kept(items, ws, i)|);
        return !items[i].stop.isSet;
      }
      return false;
    }

    // The first loop.
    method Reap() returns (raised: bool)
      requires Valid()
      modifies this`children, started`joined
      ensures Valid()
      ensures Outcome(raised, Workers()) == PoolSpec.Reap(old(Workers()))
    {
      ghost var ws := Workers();
      raised := ReapAll(children, ws);
    }

    // It goes over a copy of the items.
    method ReapAll(items: seq<Entry>, ghost ws: seq<Worker>) returns (raised: bool)
      requires Reaping(items, ws, 0)
      modifies this`children, started`joined
      ensures Valid()
      ensures Outcome(raised, Workers()) == PoolSpec.Reap(ws)
    {
      for i := 0 to |items|
        invariant Reaping(items, ws, i)
      {
        assert items[i].child in Children(items);
        raised := ReapRound(items, ws, i);
        if raised {
          ReapEnds(items, ws, i, children);
          ShowsIsView(children, PoolSpec.Reap(ws).workers);
          return;
        }
      }
      ReapEnds(items, ws, |items|, children);
      ShowsIsView(children, PoolSpec.Reap(ws).workers);
      return false;
    }

    // The second loop.
    method Ask(target: nat)
      requires Valid()
      modifies Stops(children)
      ensures Valid()
      ensures Workers() == PoolSpec.Ask(old(Workers()), target)
    {
      ghost var ws := Workers();
      for i := 0 to |children|
        invariant forall k :: 0 <= k < i ==> children[k].stop.isSet == (ws[k].asked || children[k].slot > target)
        invariant forall k :: i <= k < |children| ==> children[k].stop.isSet == ws[k].asked
      {
        assert children[i].stop in Stops(children);
        OthersApart(children, i);
        if children[i].slot > target {
          children[i].stop.isSet := true;
        }
      }
      assert Workers() == PoolSpec.Ask(ws, target);
    }

    // `children[slot] = (child, stop)` for a slot not in the dictionary.
    method Add(e: Entry)
      requires Valid() && !Occupied(children, e.slot)
      requires e.child !in started && !e.child.joined && e.child.workerId == SlotId(workerId, e.slot)
      requires e.stop !in flags
      modifies this
      ensures Valid()
      ensures children == old(children) + [e]
      ensures started == old(started) + {e.child} && flags == old(flags) + {e.stop}
    {
      AppendedHeld(children, e);
      forall x | x in children ensures Apart(x, e) {
        var i :| 0 <= i < |children| && children[i] == x;
        assert x.child in Children(children) && x.stop in Stops(children);
      }
      AppendedDistinct(children, e);
      children := children + [e];
      started, flags := started + {e.child}, flags + {e.stop};
    }

    // One start of the third loop.
    method Start(slot: nat)
      requires Valid() && !Occupied(children, slot)
      modifies this
      ensures Valid()
      ensures Workers() == old(Workers()) + [Worker(slot, true, false)]
      ensures old(started) <= started && forall x <- started :: x in old(started) || fresh(x)
      ensures old(flags) <= flags && forall x <- flags :: x in old(flags) || fresh(x)
    {
      ghost var ws := Workers();
      var stop := new Flag();
      var child := new Process(SlotId(workerId, slot));
      child.alive := true;
      assert Shows(children, ws);
      Add(Entry(slot, child, stop));
      assert Workers() == ws + [Worker(slot, true, false)];
    }

    // The third loop.
    method Fill(target: nat)
      requires Valid()
      modifies this
      ensures Valid()
      ensures Workers() == PoolSpec.Fill(old(Workers()), target)
      ensures old(started) <= started && forall x <- started :: x in old(started) || fresh(x)
      ensures old(flags) <= flags && forall x <- flags :: x in old(flags) || fresh(x)
    {
      ghost var ws := Workers();
      for slot := 1 to target + 1
        invariant Valid()
        invariant Workers() == PoolSpec.Fill(ws, slot - 1)
        invariant old(started) <= started && forall x <- started :: x in old(started) || fresh(x)
        invariant old(flags) <= flags && forall x <- flags :: x in old(flags) || fresh(x)
      {
        OccupiedIsHasSlot(children, slot);
        if !Occupied(children, slot) {
          Start(slot);
        }
      }
    }

    // reconcile_worker_pool: refines the specification of one call, and starts or joins nothing behind its back.
    method Reconcile(target: nat) returns (raised: bool)
      requires Valid()
      modifies this, started, flags
      ensures Valid()
      ensures Outcome(raised, Workers()) == Reconciled(old(Workers()), target)
      ensures old(started) <= started && forall x <- started :: x in old(started) || fresh(x)
      ensures old(flags) <= flags && forall x <- flags :: x in old(flags) || fresh(x)
    {
      raised := Reap();
      if raised { return; }
      Ask(target);
      Fill(target);
    }

    // The finally block: every child is told to terminate, then joined for a while, and killed if it is still there.
    // Whether a process obeys, or exits in time, is up to the environment.
    method Shutdown()
      requires Valid()
      modifies started
      ensures forall p <- started :: p.joined && !p.alive
    {
      Terminate();
      JoinAll();
    }

    // child.terminate() for every child that is alive.
    method Terminate()
      requires Valid()
      modifies Children(children)`alive
      ensures Valid()
    {
      for i := 0 to |children|
        invariant Valid()
      {
        assert children[i].child in Children(children);
        var obeys := *;
        if children[i].child.alive && obeys {
          children[i].child.alive := false;
        }
      }
    }

    method JoinAll()
      requires Valid()
      modifies Children(children)
      ensures forall p <- started :: p.joined && !p.alive
    {
      for i := 0 to |children|
        invariant forall p <- started :: p !in Children(children) ==> p.joined && !p.alive
        invariant forall k :: 0 <= k < i ==> children[k].child.joined && !children[k].child.alive
      {
        assert children[i].child in Children(children);
        JoinWithin(children[i].child);
        if children[i].child.alive {
          Kill(children[i].child);
        }
      }
    }
  }

  // child.join(timeout=5).
  method JoinWithin(child: Process)
    modifies child
    ensures child.joined || child.alive
    ensures child.joined ==> !child.alive
  {
    var exits := *;
    if exits {
      child.alive := false;
    }
    child.joined := !child.alive;
  }

  // child.kill(); child.join().
  method Kill(child: Process)
    modifies child
    ensures child.joined && !child.alive
  {
    child.alive, child.joined := false, true;
  }

  // Live processes of one pool report under pairwise distinct worker ids.
  lemma WorkerIdsDistinct(pool: Pool, i: nat, j: nat)
    requires pool.Valid() && i < |pool.children| && j < |pool.children| && i != j
    ensures pool.children[i].child.workerId != pool.children[j].child.workerId
  {
    OthersApart(pool.children, j);
    if pool.children[i].child.workerId == pool.children[j].child.workerId {
      SlotIdsDistinct(pool.workerId, pool.children[i].slot, pool.workerId, pool.children[j].slot);
    }
  }

  lemma OccupiedIsHasSlot(entries: seq<Entry>, slot: nat)
    ensures Occupied(entries, slot) <==> HasSlot(View(entries), slot)
  {
    var ws := View(entries);
    if Occupied(entries, slot) {
      var i :| 0 <= i < |entries| && entries[i].slot == slot;
      assert ws[i].slot == slot;
    }
  }

  // The member worker_concurrency of the data in the server's answer.
  datatype Setting = Absent | Null | Whole(value: int) | OtherValue

  // What comes back when the server is asked for the pool size: a request that fails, or a body that is too long or no
  // JSON; JSON that is no object; an object whose code is not 0; the data of any other, None if that is no object; or
  // something _post does not expect, as when reading the body of an HTTP error fails.
  datatype Reply = Unusable | NotAnObject | Refused | Data(setting: Option<Setting>) | Unexpected

  datatype Polled<+T> = Got(value: T) | WorkerError | OtherError

  // WorkerAPI._post (lines 128-152). Taking `envelope.get('message')` of what is no object is an AttributeError.
  function Post(reply: Reply): Polled<Option<Setting>> {
    match reply
    case Data(setting) => Got(setting)
    case Unusable | Refused => WorkerError
    case NotAnObject | Unexpected => OtherError
  }

  // WorkerAPI.runtime_concurrency (lines 154-161): a target is the configured one for null, or a whole number of 1..16.
  function RuntimeConcurrency(reply: Reply, configured: nat): (r: Polled<nat>)
    ensures r.Got? && r.value != configured ==> 1 <= r.value <= 16 && reply == Data(Some(Whole(r.value)))
    ensures r == Got(configured) <==>
      reply == Data(Some(Null)) || (1 <= configured <= 16 && reply == Data(Some(Whole(configured))))
    ensures r.OtherError? <==> reply.NotAnObject? || reply.Unexpected?
    ensures forall v :: 1 <= v <= 16 && reply == Data(Some(Whole(v))) ==> r == Got(v)
  {
    var data := Post(reply);
    if !data.Got? then if data.WorkerError? then WorkerError else OtherError
    else
      var setting := data.value;
      if setting == Some(Null) then Got(configured)
      else if setting.Some? && setting.value.Whole? && 1 <= setting.value.value <= 16 then Got(setting.value.value)
      else WorkerError
  }

  // One round of the pool loop: the slots whose processes exited before it, and the reply if a poll was due.
  datatype Tick = Tick(exits: seq<nat>, poll: Option<Reply>)

  // The poll raises something run_worker_pool does not catch.
  predicate PollRaises(tick: Tick, configured: nat) {
    tick.poll.Some? && RuntimeConcurrency(tick.poll.value, configured).OtherError?
  }

  // The target a round works with: a WorkerError keeps the old one.
  function NextTarget(target: nat, tick: Tick, configured: nat): nat {
    if tick.poll.None? then target
    else
      var polled := RuntimeConcurrency(tick.poll.value, configured);
      if polled.Got? then polled.value else target
  }

  // The target of round n, after the rounds before it.
  function TargetAfter(ticks: seq<Tick>, configured: nat, n: nat): (target: nat)
    requires n <= |ticks|
    ensures 1 <= configured <= 16 ==> 1 <= target <= 16
  {
    if n == 0 then configured else NextTarget(TargetAfter(ticks, configured, n - 1), ticks[n - 1], configured)
  }

  // The poll of the round brings this target: the configured one for null, or a whole number of 1 to 16.
  predicate Brings(tick: Tick, configured: nat, target: nat) {
    || (tick.poll == Some(Data(Some(Null))) && target == configured)
    || (1 <= target <= 16 && tick.poll == Some(Data(Some(Whole(target)))))
  }

  // There is no poll, or it ends in a WorkerError.
  predicate Keeps(tick: Tick) {
    match tick.poll
    case None => true
    case Some(Unusable) => true
    case Some(Refused) => true
    case Some(Data(None)) => true
    case Some(Data(Some(Absent))) => true
    case Some(Data(Some(OtherValue))) => true
    case Some(Data(Some(Whole(v)))) => v < 1 || 16 < v
    case _ => false
  }

  // The target after the first n polls: that of the last poll that brought one, or the configured one.
  ghost predicate InForce(ticks: seq<Tick>, configured: nat, n: nat, target: nat)
    requires n <= |ticks|
  {
    || (target == configured && forall k :: 0 <= k < n ==> Keeps(ticks[k]))
    || exists k ::
      && 0 <= k < n && Brings(ticks[k], configured, target)
      && forall j :: k < j < n ==> Keeps(ticks[j])
  }

  // A poll that raises what is not caught.
  predicate Foreign(tick: Tick) { tick.poll == Some(NotAnObject) || tick.poll == Some(Unexpected) }

  lemma PollMeans(tick: Tick, configured: nat, target: nat)
    ensures PollRaises(tick, configured) <==> Foreign(tick)
    ensures Keeps(tick) ==> NextTarget(target, tick, configured) == target
    ensures !Foreign(tick) && !Keeps(tick) ==> Brings(tick, configured, NextTarget(target, tick, configured))
  {}

  // While no poll raises, the target of the next call is the one in force, and no other is.
  lemma {:induction false} TargetIsInForce(ticks: seq<Tick>, configured: nat, n: nat, target: nat)
    requires n <= |ticks| && forall k :: 0 <= k < n ==> !Foreign(ticks[k])
    ensures InForce(ticks, configured, n, target) <==> target == TargetAfter(ticks, configured, n)
  {
    if n != 0 {
      PollMeans(ticks[n - 1], configured, TargetAfter(ticks, configured, n - 1));
      TargetIsInForce(ticks, configured, n - 1, target);
      if Keeps(ticks[n - 1]) {
        InForceStays(ticks, configured, n, target);
      } else {
        InForceIsNew(ticks, configured, n, target);
      }
    }
  }

  lemma InForceStays(ticks: seq<Tick>, configured: nat, n: nat, target: nat)
    requires 0 < n <= |ticks| && Keeps(ticks[n - 1])
    ensures InForce(ticks, configured, n, target) <==> InForce(ticks, configured, n - 1, target)
  {
    if k :| 0 <= k < n && Brings(ticks[k], configured, target) && forall j :: k < j < n ==> Keeps(ticks[j]) {
      assert k < n - 1;
    }
    if k :| 0 <= k < n - 1 && Brings(ticks[k], configured, target) && forall j :: k < j < n - 1 ==> Keeps(ticks[j]) {
      assert forall j :: k < j < n ==> Keeps(ticks[j]);
    }
  }

  lemma InForceIsNew(ticks: seq<Tick>, configured: nat, n: nat, target: nat)
    requires 0 < n <= |ticks| && !Keeps(ticks[n - 1])
    ensures InForce(ticks, configured, n, target) <==> Brings(ticks[n - 1], configured, target)
  {
    if k :| 0 <= k < n && Brings(ticks[k], configured, target) && forall j :: k < j < n ==> Keeps(ticks[j]) {
      assert k == n - 1;
    }
  }

  // The exits of a round, and the first rounds with the targets of their calls.
  function ExitsOf(tick: Tick): seq<Event> {
    seq(|tick.exits|, i requires 0 <= i < |tick.exits| => Exit(tick.exits[i]))
  }

  function Played(ticks: seq<Tick>, targets: seq<nat>): seq<Event>
    requires |targets| <= |ticks|
  {
    if targets == [] then []
    else
      var last := |targets| - 1;
      Played(ticks, targets[..last]) + ExitsOf(ticks[last]) + [Reconcile(targets[last])]
  }

  // The targets of the first n calls.
  function Targets(ticks: seq<Tick>, configured: nat, n: nat): (targets: seq<nat>)
    requires n <= |ticks|
  {
    seq(n, i requires 0 <= i < n => TargetAfter(ticks, configured, i + 1))
  }

  lemma {:induction false} ExitsAre(slots: seq<nat>)
    ensures Exits(slots) == seq(|slots|, i requires 0 <= i < |slots| => Exit(slots[i]))
  {
    if slots != [] {
      ExitsAre(slots[..|slots| - 1]);
    }
  }

  lemma {:induction false} ScheduleIsPlayed(ticks: seq<Tick>, configured: nat, n: nat)
    requires n <= |ticks|
    ensures Schedule(ticks, configured, n) == Played(ticks, Targets(ticks, configured, n))
  {
    if n != 0 {
      ScheduleIsPlayed(ticks, configured, n - 1);
      ExitsAre(ticks[n - 1].exits);
      assert Targets(ticks, configured, n)[..n - 1] == Targets(ticks, configured, n - 1);
    }
  }

  function Exits(slots: seq<nat>): seq<Event> {
    if slots == [] then [] else Exits(slots[..|slots| - 1]) + [Exit(slots[|slots| - 1])]
  }

  // What happens to the pool over the first n rounds.
  function Schedule(ticks: seq<Tick>, configured: nat, n: nat): seq<Event>
    requires n <= |ticks|
  {
    if n == 0 then []
    else Schedule(ticks, configured, n - 1) + Exits(ticks[n - 1].exits) + [Reconcile(TargetAfter(ticks, configured, n))]
  }

  // And up to the reconcile call of the round after them.
  function BeforeCall(ticks: seq<Tick>, configured: nat, n: nat): seq<Event>
    requires n < |ticks|
  {
    Schedule(ticks, configured, n) + Exits(ticks[n].exits)
  }

  // Before the call of round n some process has exited that nobody had asked to.
  ghost predicate CrashSeen(ticks: seq<Tick>, configured: nat, n: nat)
    requires n < |ticks|
  {
    exists w :: w in Run([], BeforeCall(ticks, configured, n)).workers && Crashed(w)
  }

  lemma RunStep(events: seq<Event>, e: Event)
    requires !Run([], events).raised
    ensures Run([], events + [e]) ==
      match e
      case Exit(slot) => Outcome(false, Exiting(Run([], events).workers, slot))
      case Reconcile(target) => Reconciled(Run([], events).workers, target)
  {
    assert (events + [e])[..|events|] == events;
  }

  // One round's exits.
  method ProcessesExit(pool: Pool, slots: seq<nat>, ghost events: seq<Event>)
    requires pool.Valid() && Outcome(false, pool.Workers()) == Run([], events)
    modifies pool.started`alive
    ensures pool.Valid() && Outcome(false, pool.Workers()) == Run([], events + Exits(slots))
  {
    assert events + Exits([]) == events;
    for i := 0 to |slots|
      invariant pool.Valid() && Outcome(false, pool.Workers()) == Run([], events + Exits(slots[..i]))
    {
      pool.ProcessExits(slots[i]);
      RunStep(events + Exits(slots[..i]), Exit(slots[i]));
      assert slots[..i + 1][..i] == slots[..i];
      assert events + Exits(slots[..i]) + [Exit(slots[i])] == events + Exits(slots[..i + 1]);
    }
    assert slots[..|slots|] == slots;
  }

  // How run_worker_pool ends: by an interrupt after the given rounds, or by an exception of the poll or the call.
  datatype End = Interrupted | PollFailed | Crash

  // The pool after these events.
  ghost predicate At(pool: Pool, events: seq<Event>, raised: bool)
    reads pool, pool.started, Children(pool.children), Stops(pool.children)
  {
    pool.Valid() && Outcome(raised, pool.Workers()) == Run([], events)
  }

  // What happened to the pool, when round n is the last.
  function Happened(ticks: seq<Tick>, configured: nat, n: nat, end: End): seq<Event>
    requires if end.Interrupted? then n == |ticks| else n < |ticks|
  {
    match end
    case Interrupted => Schedule(ticks, configured, n)
    case PollFailed => BeforeCall(ticks, configured, n)
    case Crash => Schedule(ticks, configured, n + 1)
  }

  // The call of round n raises exactly on a crash.
  lemma CallRaisesOnCrash(ticks: seq<Tick>, configured: nat, n: nat)
    requires n < |ticks| && !Run([], BeforeCall(ticks, configured, n)).raised
    ensures Run([], Schedule(ticks, configured, n + 1)).raised <==> CrashSeen(ticks, configured, n)
  {
    var target := TargetAfter(ticks, configured, n + 1);
    RunStep(BeforeCall(ticks, configured, n), Reconcile(target));
    RaisesExactlyOnCrash(Run([], BeforeCall(ticks, configured, n)).workers, target);
  }

  // Round k ends the loop.
  ghost predicate Ends(ticks: seq<Tick>, configured: nat, k: nat)
    requires k < |ticks|
  {
    PollRaises(ticks[k], configured) || CrashSeen(ticks, configured, k)
  }

  // None of the first n rounds does.
  ghost predicate Quiet(ticks: seq<Tick>, configured: nat, n: nat) {
    n <= |ticks| && forall k :: 0 <= k < n ==> !Ends(ticks, configured, k)
  }

  lemma QuietStep(ticks: seq<Tick>, configured: nat, n: nat)
    requires Quiet(ticks, configured, n) && n < |ticks| && !Ends(ticks, configured, n)
    ensures Quiet(ticks, configured, n + 1)
  {}

  // Round n is the first that ends the loop, if any does: by its poll, or else by its call.
  ghost predicate StopsAt(ticks: seq<Tick>, configured: nat, n: nat, end: End) {
    && Quiet(ticks, configured, n)
    && (end.Interrupted? <==> n == |ticks|)
    && (n < |ticks| ==> Ends(ticks, configured, n) && (end.PollFailed? <==> PollRaises(ticks[n], configured)))
  }

  // The pool loop at the beginning of round n.
  ghost predicate Reached(pool: Pool, ticks: seq<Tick>, configured: nat, n: nat, target: nat)
    reads pool, pool.started, Children(pool.children), Stops(pool.children)
  {
    && Quiet(ticks, configured, n)
    && At(pool, Schedule(ticks, configured, n), false) && target == TargetAfter(ticks, configured, n)
  }

  // The poll of a round: a WorkerError is caught, anything else is not.
  method Poll(tick: Tick, configured: nat, target: nat) returns (failed: bool, target': nat)
    ensures failed <==> PollRaises(tick, configured)
    ensures !failed ==> target' == NextTarget(target, tick, configured)
  {
    if tick.poll.Some? {
      var polled := RuntimeConcurrency(tick.poll.value, configured);
      if polled.Got? {
        return false, polled.value;
      }
      return polled.OtherError?, target;
    }
    return false, target;
  }

  // The reconcile call of a round.
  method Call(pool: Pool, ticks: seq<Tick>, configured: nat, n: nat, target: nat) returns (raised: bool)
    requires n < |ticks| && At(pool, BeforeCall(ticks, configured, n), false)
      && target == TargetAfter(ticks, configured, n + 1)
    modifies pool, pool.started, pool.flags
    ensures raised <==> CrashSeen(ticks, configured, n)
    ensures At(pool, Schedule(ticks, configured, n + 1), raised)
    ensures old(pool.started) <= pool.started && forall x <- pool.started :: x in old(pool.started) || fresh(x)
    ensures old(pool.flags) <= pool.flags && forall x <- pool.flags :: x in old(pool.flags) || fresh(x)
  {
    CallRaisesOnCrash(ticks, configured, n);
    RunStep(BeforeCall(ticks, configured, n), Reconcile(target));
    raised := pool.Reconcile(target);
  }

  // The poll and the call of a round, once its processes have exited: None if the loop goes on.
  method PollAndCall(pool: Pool, ticks: seq<Tick>, configured: nat, n: nat, target: nat)
    returns (target': nat, end: Option<End>)
    requires n < |ticks| && At(pool, BeforeCall(ticks, configured, n), false)
      && target == TargetAfter(ticks, configured, n)
    modifies pool, pool.started, pool.flags
    ensures end != Some(Interrupted) && (end.Some? <==> Ends(ticks, configured, n))
    ensures end == Some(PollFailed) <==> PollRaises(ticks[n], configured)
    ensures end != Some(PollFailed) ==> target' == TargetAfter(ticks, configured, n + 1)
    ensures if end == Some(PollFailed) then At(pool, BeforeCall(ticks, configured, n), false)
            else At(pool, Schedule(ticks, configured, n + 1), end == Some(Crash))
    ensures old(pool.started) <= pool.started && forall x <- pool.started :: x in old(pool.started) || fresh(x)
    ensures old(pool.flags) <= pool.flags && forall x <- pool.flags :: x in old(pool.flags) || fresh(x)
  {
    var failed;
    failed, target' := Poll(ticks[n], configured, target);
    if failed {
      return target', Some(PollFailed);
    }
    var raised := Call(pool, ticks, configured, n, target');
    end := if raised then Some(Crash) else None;
  }

  // One round.
  method Round(pool: Pool, ticks: seq<Tick>, configured: nat, n: nat, target: nat)
    returns (target': nat, end: Option<End>)
    requires n < |ticks| && Reached(pool, ticks, configured, n, target)
    modifies pool, pool.started, pool.flags
    ensures end.None? ==> Reached(pool, ticks, configured, n + 1, target')
    ensures end.Some? ==>
      StopsAt(ticks, configured, n, end.value) && At(pool, Happened(ticks, configured, n, end.value), end.value.Crash?)
    ensures old(pool.started) <= pool.started && forall x <- pool.started :: x in old(pool.started) || fresh(x)
    ensures old(pool.flags) <= pool.flags && forall x <- pool.flags :: x in old(pool.flags) || fresh(x)
  {
    ProcessesExit(pool, ticks[n].exits, Schedule(ticks, configured, n));
    target', end := PollAndCall(pool, ticks, configured, n, target);
    if end.None? {
      QuietStep(ticks, configured, n);
    }
  }

  // The pool loop, until a round raises or the rounds are over.
  method Rounds(pool: Pool, ticks: seq<Tick>, configured: nat) returns (end: End, n: nat)
    requires At(pool, [], false)
    modifies pool, pool.started, pool.flags
    ensures StopsAt(ticks, configured, n, end) && At(pool, Happened(ticks, configured, n, end), end.Crash?)
    ensures old(pool.started) <= pool.started && forall x <- pool.started :: x in old(pool.started) || fresh(x)
    ensures old(pool.flags) <= pool.flags && forall x <- pool.flags :: x in old(pool.flags) || fresh(x)
  {
    var target := configured;
    n := 0;
    while n < |ticks|
      invariant Reached(pool, ticks, configured, n, target)
      invariant old(pool.started) <= pool.started && forall x <- pool.started :: x in old(pool.started) || fresh(x)
      invariant old(pool.flags) <= pool.flags && forall x <- pool.flags :: x in old(pool.flags) || fresh(x)
    {
      var trouble;
      target, trouble := Round(pool, ticks, configured, n, target);
      if trouble.Some? {
        return trouble.value, n;
      }
      n := n + 1;
    }
    end := Interrupted;
  }

  // The entries hold these slots, with these stop flags.
  ghost predicate SameSlots(entries: seq<Entry>, ws: seq<Worker>)
    reads Stops(entries)
  {
    |entries| == |ws| && forall i :: 0 <= i < |ws| ==>
      entries[i].slot == ws[i].slot && entries[i].stop.isSet == ws[i].asked
  }

  // The loop and its finally block.
  method RunAndShutDown(workerId: string, configured: nat, ticks: seq<Tick>) returns (pool: Pool, end: End, n: nat)
    ensures StopsAt(ticks, configured, n, end)
    ensures forall p <- pool.started :: p.joined && !p.alive
    ensures Children(pool.children) <= pool.started
    ensures SameSlots(pool.children, Run([], Happened(ticks, configured, n, end)).workers)
  {
    pool := new Pool(workerId);
    assert pool.Workers() == [];
    end, n := Rounds(pool, ticks, configured);
    ghost var ws := pool.Workers();
    pool.Shutdown();
    assert SameSlots(pool.children, ws);
  }

  // A process has exited that nobody had asked to.
  ghost predicate UnaskedExit(ws: seq<Worker>) { exists w :: w in ws && !w.alive && !w.asked }

  // What a run of the pool loop ending this way in round n comes to, with these targets of its calls.
  ghost predicate PoolRun(ticks: seq<Tick>, configured: nat, n: nat, end: End, targets: seq<nat>) {
    && n <= |ticks| && (end.Interrupted? <==> n == |ticks|) && |targets| == (if end.Crash? then n + 1 else n) <= |ticks|
    && (end.PollFailed? <==> n < |ticks| && (ticks[n].poll == Some(NotAnObject) || ticks[n].poll == Some(Unexpected)))
    && (forall k :: 0 <= k < |targets| ==>
      && ticks[k].poll != Some(NotAnObject) && ticks[k].poll != Some(Unexpected)
      && InForce(ticks, configured, k + 1, targets[k]))
    && forall k :: 0 <= k < |targets| ==>
      (UnaskedExit(Run([], Played(ticks, targets[..k]) + ExitsOf(ticks[k])).workers) <==> end.Crash? && k == n)
  }

  lemma BeforeCallIsPlayed(ticks: seq<Tick>, configured: nat, k: nat)
    requires k < |ticks|
    ensures BeforeCall(ticks, configured, k) == Played(ticks, Targets(ticks, configured, k)) + ExitsOf(ticks[k])
  {
    ScheduleIsPlayed(ticks, configured, k);
    ExitsAre(ticks[k].exits);
  }

  lemma CrashSeenMeans(ticks: seq<Tick>, configured: nat, k: nat)
    requires k < |ticks|
    ensures BeforeCall(ticks, configured, k) == Played(ticks, Targets(ticks, configured, k)) + ExitsOf(ticks[k])
    ensures CrashSeen(ticks, configured, k) <==>
      UnaskedExit(Run([], Played(ticks, Targets(ticks, configured, k)) + ExitsOf(ticks[k])).workers)
  {
    BeforeCallIsPlayed(ticks, configured, k);
  }

  // The calls that are made, and which of them raises.
  lemma CallsMade(ticks: seq<Tick>, configured: nat, n: nat, end: End, k: nat)
    requires StopsAt(ticks, configured, n, end) && k < if end.Crash? then n + 1 else n
    ensures k < |ticks| && !PollRaises(ticks[k], configured)
    ensures CrashSeen(ticks, configured, k) <==> end.Crash? && k == n
  {
    if k < n {
      assert !Ends(ticks, configured, k);
    }
  }

  lemma CallMeans(ticks: seq<Tick>, configured: nat, n: nat, end: End, targets: seq<nat>, k: nat)
    requires StopsAt(ticks, configured, n, end) && k < if end.Crash? then n + 1 else n
    requires |targets| <= |ticks| && targets == Targets(ticks, configured, |targets|) && k < |targets|
    ensures ticks[k].poll != Some(NotAnObject) && ticks[k].poll != Some(Unexpected)
    ensures UnaskedExit(Run([], Played(ticks, targets[..k]) + ExitsOf(ticks[k])).workers) <==> end.Crash? && k == n
  {
    CallsMade(ticks, configured, n, end, k);
    PollMeans(ticks[k], configured, 0);
    CrashSeenMeans(ticks, configured, k);
    assert targets[..k] == Targets(ticks, configured, k);
  }

  lemma StopsAtMeans(ticks: seq<Tick>, configured: nat, n: nat, end: End, targets: seq<nat>)
    requires StopsAt(ticks, configured, n, end)
    requires targets == Targets(ticks, configured, if end.Crash? then n + 1 else n)
    ensures PoolRun(ticks, configured, n, end, targets)
    ensures Happened(ticks, configured, n, end) ==
      Played(ticks, targets) + if end.PollFailed? then ExitsOf(ticks[n]) else []
  {
    forall k | 0 <= k < |targets|
      ensures ticks[k].poll != Some(NotAnObject) && ticks[k].poll != Some(Unexpected)
      ensures UnaskedExit(Run([], Played(ticks, targets[..k]) + ExitsOf(ticks[k])).workers) <==> end.Crash? && k == n
    {
      CallMeans(ticks, configured, n, end, targets, k);
    }
    forall k | 0 <= k < |targets| ensures InForce(ticks, configured, k + 1, targets[k]) {
      TargetIsInForce(ticks, configured, k + 1, targets[k]);
    }
    HappenedMeans(ticks, configured, n, end, targets);
  }

  lemma HappenedMeans(ticks: seq<Tick>, configured: nat, n: nat, end: End, targets: seq<nat>)
    requires StopsAt(ticks, configured, n, end)
    requires targets == Targets(ticks, configured, if end.Crash? then n + 1 else n)
    ensures n < |ticks| ==> (end.PollFailed? <==> Foreign(ticks[n]))
    ensures Happened(ticks, configured, n, end) ==
      Played(ticks, targets) + if end.PollFailed? then ExitsOf(ticks[n]) else []
  {
    ScheduleIsPlayed(ticks, configured, |targets|);
    if n < |ticks| {
      PollMeans(ticks[n], configured, 0);
      CrashSeenMeans(ticks, configured, n);
    }
  }

  /**
   run_worker_pool, until it raises or is interrupted after the given rounds. It raises exactly in the first round whose
   poll raises something other than a WorkerError, or in which a process has exited unasked. Until then each call
   reconciles to the target in force, that of the last poll that brought one, and the pool goes through exactly the
   states of that run. However it ends, every process it ever started has exited and been joined.
   */
  method RunWorkerPool(workerId: string, configured: nat, ticks: seq<Tick>)
    returns (pool: Pool, end: End, n: nat, ghost targets: seq<nat>)
    ensures PoolRun(ticks, configured, n, end, targets)
    ensures forall p <- pool.started :: p.joined && !p.alive
    ensures Children(pool.children) <= pool.started
    ensures var events := Played(ticks, targets) + if end.PollFailed? then ExitsOf(ticks[n]) else [];
      SameSlots(pool.children, Run([], events).workers)
  {
    pool, end, n := RunAndShutDown(workerId, configured, ticks);
    targets := Targets(ticks, configured, if end.Crash? then n + 1 else n);
    StopsAtMeans(ticks, configured, n, end, targets);
  }

  // Throughout such a run every slot lies in 1..16 and holds at most one process.
  lemma PoolRunsAreSound(ticks: seq<Tick>, configured: nat, n: nat)
    requires 1 <= configured <= 16 && n <= |ticks|
    ensures Sound(Run([], Schedule(ticks, configured, n)).workers, 16)
    ensures n < |ticks| ==> Sound(Run([], BeforeCall(ticks, configured, n)).workers, 16)
  {
    ScheduleTargets(ticks, configured, n);
    EveryRunIsSound([], Schedule(ticks, configured, n), 16);
    if n < |ticks| {
      ExitsAreExits(ticks[n].exits);
      EveryRunIsSound([], BeforeCall(ticks, configured, n), 16);
    }
  }

  lemma {:induction false} ScheduleTargets(ticks: seq<Tick>, configured: nat, n: nat)
    requires 1 <= configured <= 16 && n <= |ticks|
    ensures forall e :: e in Schedule(ticks, configured, n) && e.Reconcile? ==> e.target <= 16
  {
    if n > 0 {
      ScheduleTargets(ticks, configured, n - 1);
      ExitsAreExits(ticks[n - 1].exits);
    }
  }

  lemma {:induction false} ExitsAreExits(slots: seq<nat>)
    ensures forall e :: e in Exits(slots) ==> e.Exit?
  {
    if slots != [] {
      ExitsAreExits(slots[..|slots| - 1]);
    }
  }
}
