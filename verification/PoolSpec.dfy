/**
 What reconcile_worker_pool of tools/openai_oauth_reauth_worker.py (lines 320-335) does to the pool, seen as a list of
 slots, and what every run of it keeps. A process may exit at any moment; an exit during a call is an exit before it or
 after it, because the call looks at each process once.
 */
module PoolSpec {
  // An entry of the children dictionary, in insertion order.
  datatype Worker = Worker(slot: nat, alive: bool, asked: bool)

  // How a call ends: normally or with the exception, and with which children.
  datatype Outcome = Outcome(raised: bool, workers: seq<Worker>)

  predicate HasSlot(ws: seq<Worker>, slot: nat) { exists i :: 0 <= i < |ws| && ws[i].slot == slot }

  // The first n items whose worker is alive.
  function Kept<T>(items: seq<T>, ws: seq<Worker>, n: nat): (kept: seq<T>)
    requires n <= |ws| && n <= |items|
    ensures |kept| <= n
  {
    if n == 0 then []
    else if ws[n - 1].alive then Kept(items, ws, n - 1) + [items[n - 1]]
    else Kept(items, ws, n - 1)
  }

  // The process exited although nobody asked it to.
  predicate Crashed(w: Worker) { !w.alive && !w.asked }

  // The position of the first such process.
  function FirstCrash(ws: seq<Worker>): (k: nat)
    ensures k <= |ws| && (k < |ws| ==> Crashed(ws[k])) && forall i :: 0 <= i < k ==> !Crashed(ws[i])
  {
    if ws == [] || Crashed(ws[0]) then 0 else 1 + FirstCrash(ws[1..])
  }

  // The first loop: exited processes leave the pool, up to and including the first crashed one.
  function Reap(ws: seq<Worker>): Outcome {
    var k := FirstCrash(ws);
    if k < |ws| then Outcome(true, Kept(ws, ws, k) + ws[k + 1..]) else Outcome(false, Kept(ws, ws, |ws|))
  }

  // The second loop.
  function Ask(ws: seq<Worker>, target: nat): (r: seq<Worker>)
    ensures |r| == |ws|
    ensures forall i :: 0 <= i < |ws| ==> r[i] == ws[i].(asked := ws[i].asked || ws[i].slot > target)
  {
    seq(|ws|, i requires 0 <= i < |ws| => ws[i].(asked := ws[i].asked || ws[i].slot > target))
  }

  // The third loop, up to slot n.
  function Fill(ws: seq<Worker>, n: nat): seq<Worker> {
    if n == 0 then ws
    else if HasSlot(Fill(ws, n - 1), n) then Fill(ws, n - 1)
    else Fill(ws, n - 1) + [Worker(n, true, false)]
  }

  function Reconciled(ws: seq<Worker>, target: nat): Outcome {
    var reaped := Reap(ws);
    if reaped.raised then reaped else Outcome(false, Fill(Ask(reaped.workers, target), target))
  }

  // ---- One call ----

  ghost predicate SlotsDistinct(ws: seq<Worker>) { forall i, j :: 0 <= i < j < |ws| ==> ws[i].slot != ws[j].slot }

  ghost predicate SlotsWithin(ws: seq<Worker>, max: nat) { forall i :: 0 <= i < |ws| ==> 1 <= ws[i].slot <= max }

  // At most one process per slot, and only slots 1..max.
  ghost predicate Sound(ws: seq<Worker>, max: nat) { SlotsDistinct(ws) && SlotsWithin(ws, max) }

  // Everything above the target has been asked to stop.
  ghost predicate Settled(ws: seq<Worker>, target: nat) {
    forall i :: 0 <= i < |ws| && ws[i].slot > target ==> ws[i].asked
  }

  // How many processes have been asked to stop.
  function Stopping(ws: seq<Worker>): nat {
    if ws == [] then 0 else (if ws[|ws| - 1].asked then 1 else 0) + Stopping(ws[..|ws| - 1])
  }

  // How many have exited.
  function Exited(ws: seq<Worker>): nat {
    if ws == [] then 0 else (if ws[|ws| - 1].alive then 0 else 1) + Exited(ws[..|ws| - 1])
  }

  lemma {:induction false} KeptIsLive(ws: seq<Worker>, n: nat)
    requires n <= |ws|
    ensures forall w :: w in Kept(ws, ws, n) <==> w.alive && w in ws[..n]
    ensures SlotsDistinct(ws) ==> SlotsDistinct(Kept(ws, ws, n))
  {
    if n > 0 {
      KeptIsLive(ws, n - 1);
      assert ws[..n] == ws[..n - 1] + [ws[n - 1]];
      var before := Kept(ws, ws, n - 1);
      if SlotsDistinct(ws) {
        forall i | 0 <= i < |before| ensures before[i].slot != ws[n - 1].slot {
          assert before[i] in before;
          var k :| 0 <= k < n - 1 && ws[k] == before[i];
        }
      }
    }
  }

  // Those kept and those not looked at have different slots.
  lemma KeptApart(ws: seq<Worker>, k: nat)
    requires k < |ws| && SlotsDistinct(ws)
    ensures SlotsDistinct(Kept(ws, ws, k) + ws[k + 1..])
  {
    KeptIsLive(ws, k);
    var kept := Kept(ws, ws, k);
    forall i, j | 0 <= i < |kept| && k < j < |ws| ensures kept[i].slot != ws[j].slot {
      assert kept[i] in kept;
      var m :| 0 <= m < k && ws[m] == kept[i];
    }
  }

  lemma ReapKeepsDistinct(ws: seq<Worker>)
    requires SlotsDistinct(ws)
    ensures SlotsDistinct(Reap(ws).workers)
  {
    var k := FirstCrash(ws);
    if k < |ws| {
      KeptApart(ws, k);
    } else {
      KeptIsLive(ws, k);
    }
  }

  // Reaping keeps the live processes; it removes every exited one, or stops at the first crashed one.
  lemma ReapExact(ws: seq<Worker>)
    ensures Reap(ws).raised <==> exists w :: w in ws && !w.alive && !w.asked
    ensures forall w :: w in Reap(ws).workers ==> w in ws
    ensures forall w :: w in ws && w.alive ==> w in Reap(ws).workers
    ensures !Reap(ws).raised ==> forall w :: w in Reap(ws).workers ==> w.alive
    ensures SlotsDistinct(ws) ==> SlotsDistinct(Reap(ws).workers)
  {
    var k := FirstCrash(ws);
    KeptIsLive(ws, k);
    if SlotsDistinct(ws) {
      ReapKeepsDistinct(ws);
    }
    if k < |ws| {
      assert ws[k] in ws;
      assert ws == ws[..k] + [ws[k]] + ws[k + 1..];
    } else {
      assert ws[..k] == ws;
    }
  }

  // Filling appends one fresh, unasked process for each missing slot of 1..n and touches nothing else.
  lemma {:induction false} FillExact(ws: seq<Worker>, n: nat)
    ensures ws <= Fill(ws, n)
    ensures forall slot: nat :: HasSlot(Fill(ws, n), slot) <==> HasSlot(ws, slot) || 1 <= slot <= n
    ensures forall i :: |ws| <= i < |Fill(ws, n)| ==>
      Fill(ws, n)[i] == Worker(Fill(ws, n)[i].slot, true, false) && 1 <= Fill(ws, n)[i].slot <= n
    ensures SlotsDistinct(ws) ==> SlotsDistinct(Fill(ws, n))
  {
    if n > 0 {
      FillExact(ws, n - 1);
      var before, after := Fill(ws, n - 1), Fill(ws, n);
      forall slot: nat ensures HasSlot(after, slot) <==> HasSlot(before, slot) || slot == n {
        if HasSlot(before, slot) {
          var i :| 0 <= i < |before| && before[i].slot == slot;
          assert after[i].slot == slot;
        }
        if !HasSlot(before, n) { assert after[|before|].slot == n; }
      }
    }
  }

  // One call keeps at most one process per slot and never leaves 1..max.
  lemma ReconcileKeepsSound(ws: seq<Worker>, target: nat, max: nat)
    requires Sound(ws, max) && target <= max
    ensures Sound(Reconciled(ws, target).workers, max)
  {
    ReapExact(ws);
    var reaped := Reap(ws).workers;
    forall i | 0 <= i < |reaped| ensures 1 <= reaped[i].slot <= max {
      assert reaped[i] in reaped;
    }
    FillExact(Ask(reaped, target), target);
  }

  // It raises exactly if some process exited without having been asked to.
  lemma RaisesExactlyOnCrash(ws: seq<Worker>, target: nat)
    ensures Reconciled(ws, target).raised <==> exists w :: w in ws && !w.alive && !w.asked
  {
    ReapExact(ws);
  }

  // A normal return leaves slots 1..target all occupied, everything above them asked to stop, and every process alive.
  lemma ReconcileReaches(ws: seq<Worker>, target: nat)
    requires !Reconciled(ws, target).raised
    ensures var r := Reconciled(ws, target).workers;
      && (forall slot: nat :: 1 <= slot <= target ==> HasSlot(r, slot))
      && Settled(r, target)
      && forall i :: 0 <= i < |r| ==> r[i].alive
  {
    ReapExact(ws);
    var reaped := Reap(ws).workers;
    forall i | 0 <= i < |reaped| ensures reaped[i].alive {
      assert reaped[i] in reaped;
    }
    FillExact(Ask(reaped, target), target);
  }

  // A process that was alive is still in its slot, asked if it was asked or lies above the target.
  lemma LiveProcessesStay(ws: seq<Worker>, target: nat, w: Worker)
    requires w in ws && w.alive && !Reconciled(ws, target).raised
    ensures w.(asked := w.asked || w.slot > target) in Reconciled(ws, target).workers
  {
    ReapExact(ws);
    var reaped := Reap(ws).workers;
    var i :| 0 <= i < |reaped| && reaped[i] == w;
    var asked := Ask(reaped, target);
    assert asked[i] == w.(asked := w.asked || w.slot > target);
    FillExact(asked, target);
    assert Fill(asked, target)[i] == asked[i];
  }

  // ---- Convergence: the number of processes asked to stop ----

  lemma {:induction false} KeptStopping(ws: seq<Worker>, n: nat)
    requires n <= |ws| && forall i :: 0 <= i < n ==> !Crashed(ws[i])
    ensures Stopping(Kept(ws, ws, n)) == Stopping(ws[..n]) - Exited(ws[..n])
  {
    if n > 0 {
      KeptStopping(ws, n - 1);
      assert ws[..n][..n - 1] == ws[..n - 1];
      var before := Kept(ws, ws, n - 1);
      assert (before + [ws[n - 1]])[..|before|] == before;
    }
  }

  lemma {:induction false} FillStopping(ws: seq<Worker>, n: nat)
    ensures Stopping(Fill(ws, n)) == Stopping(ws)
  {
    if n > 0 {
      FillStopping(ws, n - 1);
      var before := Fill(ws, n - 1);
      assert (before + [Worker(n, true, false)])[..|before|] == before;
    }
  }

  lemma {:induction false} NoneStopping(ws: seq<Worker>)
    ensures Stopping(ws) == 0 <==> forall i :: 0 <= i < |ws| ==> !ws[i].asked
  {
    if ws != [] {
      NoneStopping(ws[..|ws| - 1]);
    }
  }

  // At an unchanged target a call reduces the number of stopping processes by exactly the number it reaps.
  lemma StoppingFallsWithEachReap(ws: seq<Worker>, target: nat)
    requires Settled(ws, target) && !Reconciled(ws, target).raised
    ensures Settled(Reconciled(ws, target).workers, target)
    ensures Stopping(Reconciled(ws, target).workers) == Stopping(ws) - Exited(ws)
  {
    ReconcileReaches(ws, target);
    ReapExact(ws);
    var reaped := Reap(ws).workers;
    forall i | 0 <= i < |reaped| && reaped[i].slot > target ensures reaped[i].asked {
      assert reaped[i] in reaped;
    }
    assert Ask(reaped, target) == reaped;
    FillStopping(reaped, target);
    KeptStopping(ws, |ws|);
    assert ws[..|ws|] == ws;
  }

  // With nothing left to stop, the pool is exactly slots 1..target.
  lemma NothingStoppingIsExact(ws: seq<Worker>, target: nat, max: nat)
    requires Sound(ws, max) && Settled(ws, target) && Stopping(ws) == 0
    requires forall slot: nat :: 1 <= slot <= target ==> HasSlot(ws, slot)
    ensures forall slot: nat :: HasSlot(ws, slot) <==> 1 <= slot <= target
    ensures forall i :: 0 <= i < |ws| ==> !ws[i].asked
  {
    NoneStopping(ws);
  }

  // ---- Runs ----

  datatype Event = Exit(slot: nat) | Reconcile(target: nat)

  function Exiting(ws: seq<Worker>, slot: nat): (r: seq<Worker>)
    ensures |r| == |ws|
    ensures forall i :: 0 <= i < |ws| ==> r[i] == if ws[i].slot == slot then ws[i].(alive := false) else ws[i]
  {
    seq(|ws|, i requires 0 <= i < |ws| => if ws[i].slot == slot then ws[i].(alive := false) else ws[i])
  }

  // The pool after the events, up to the first exception.
  function Run(ws: seq<Worker>, events: seq<Event>): Outcome {
    if events == [] then Outcome(false, ws)
    else
      var before := Run(ws, events[..|events| - 1]);
      if before.raised then before
      else
        match events[|events| - 1]
        case Exit(slot) => Outcome(false, Exiting(before.workers, slot))
        case Reconcile(target) => Reconciled(before.workers, target)
  }

  // Whatever exits and whatever the targets up to max, the pool never has two processes in a slot, nor a slot beyond
  // max.
  lemma {:induction false} EveryRunIsSound(ws: seq<Worker>, events: seq<Event>, max: nat)
    requires Sound(ws, max) && forall e :: e in events && e.Reconcile? ==> e.target <= max
    ensures Sound(Run(ws, events).workers, max)
  {
    if events != [] {
      var init, last := events[..|events| - 1], events[|events| - 1];
      EveryRunIsSound(ws, init, max);
      assert last in events;
      if last.Reconcile? && !Run(ws, init).raised {
        ReconcileKeepsSound(Run(ws, init).workers, last.target, max);
      }
    }
  }

  // A process exits only after having been asked to, at every point of the run.
  ghost predicate Orderly(ws: seq<Worker>, events: seq<Event>) {
    forall k, i :: 0 <= k < |events| && events[k].Exit? && 0 <= i < |Run(ws, events[..k]).workers|
                   && Run(ws, events[..k]).workers[i].slot == events[k].slot
                   ==> Run(ws, events[..k]).workers[i].asked
  }

  lemma OrderlyPrefix(ws: seq<Worker>, events: seq<Event>)
    requires Orderly(ws, events) && events != []
    ensures Orderly(ws, events[..|events| - 1])
  {
    var init := events[..|events| - 1];
    forall k, i | 0 <= k < |init| && init[k].Exit? && 0 <= i < |Run(ws, init[..k]).workers|
      && Run(ws, init[..k]).workers[i].slot == init[k].slot
      ensures Run(ws, init[..k]).workers[i].asked
    {
      assert init[..k] == events[..k];
    }
  }

  // Such a run never raises.
  lemma {:induction false} OrderlyRunsNeverRaise(ws: seq<Worker>, events: seq<Event>)
    requires Orderly(ws, events) && forall w :: w in ws ==> w.alive || w.asked
    ensures !Run(ws, events).raised && forall w :: w in Run(ws, events).workers ==> w.alive || w.asked
  {
    if events != [] {
      var init, last := events[..|events| - 1], events[|events| - 1];
      OrderlyPrefix(ws, events);
      OrderlyRunsNeverRaise(ws, init);
      var before := Run(ws, init).workers;
      if last.Reconcile? {
        ReapExact(before);
        ReconcileReaches(before, last.target);
      }
    }
  }

  ghost predicate AtTarget(events: seq<Event>, target: nat) {
    forall k :: 0 <= k < |events| && events[k].Reconcile? ==> events[k].target == target
  }

  // The processes reaped in the run.
  function Reaped(ws: seq<Worker>, events: seq<Event>): nat {
    if events == [] then 0
    else
      var init := events[..|events| - 1];
      Reaped(ws, init) + if events[|events| - 1].Reconcile? then Exited(Run(ws, init).workers) else 0
  }

  lemma {:induction false} ExitingKeepsStopping(ws: seq<Worker>, slot: nat)
    ensures Stopping(Exiting(ws, slot)) == Stopping(ws)
  {
    if ws != [] {
      var init := ws[..|ws| - 1];
      ExitingKeepsStopping(init, slot);
      assert Exiting(ws, slot)[..|ws| - 1] == Exiting(init, slot);
    }
  }

  // While the target stays, the number of stopping processes never rises and falls by exactly the number reaped.
  lemma {:induction false} StoppingNeverRises(ws: seq<Worker>, events: seq<Event>, target: nat)
    requires Settled(ws, target) && AtTarget(events, target) && !Run(ws, events).raised
    ensures Settled(Run(ws, events).workers, target)
    ensures Stopping(Run(ws, events).workers) == Stopping(ws) - Reaped(ws, events)
  {
    if events != [] {
      var init, last := events[..|events| - 1], events[|events| - 1];
      StoppingNeverRises(ws, init, target);
      var before := Run(ws, init).workers;
      match last
      case Exit(slot) => ExitingKeepsStopping(before, slot);
      case Reconcile(_) => StoppingFallsWithEachReap(before, target);
    }
  }

  // A stopping process of the run so far is an old one: it was already asked in ws, and it is gone for good once it
  // exits.
  ghost predicate Leftover(ws: seq<Worker>, events: seq<Event>, v: Worker) {
    exists i :: 0 <= i < |ws| && ws[i].asked && ws[i].slot == v.slot
      && (Exit(v.slot) in events || !ws[i].alive ==> !v.alive)
  }

  lemma {:induction false} OnlyLeftoversStop(ws: seq<Worker>, events: seq<Event>, target: nat)
    requires Settled(ws, target) && AtTarget(events, target) && !Run(ws, events).raised
    ensures forall v :: v in Run(ws, events).workers && v.asked ==> Leftover(ws, events, v)
  {
    if events == [] {
      forall v | v in ws && v.asked ensures Leftover(ws, events, v) {
        var i :| 0 <= i < |ws| && ws[i] == v;
      }
    } else {
      var init, last := events[..|events| - 1], events[|events| - 1];
      OnlyLeftoversStop(ws, init, target);
      StoppingNeverRises(ws, init, target);
      assert events == init + [last];
      forall v | v in Run(ws, events).workers && v.asked ensures Leftover(ws, events, v) {
        OldStopper(Run(ws, init).workers, last, target, v);
        var u :| u in Run(ws, init).workers && u.asked && u.slot == v.slot
          && (last == Exit(v.slot) || !u.alive ==> !v.alive);
        var i :| 0 <= i < |ws| && ws[i].asked && ws[i].slot == u.slot
          && (Exit(u.slot) in init || !ws[i].alive ==> !u.alive);
      }
    }
  }

  lemma OldStopper(before: seq<Worker>, e: Event, target: nat, v: Worker)
    requires Settled(before, target) && (e.Reconcile? ==> e.target == target && !Reconciled(before, target).raised)
    requires v in (if e.Exit? then Exiting(before, e.slot) else Reconciled(before, target).workers) && v.asked
    ensures exists u :: u in before && u.asked && u.slot == v.slot && (e == Exit(v.slot) || !u.alive ==> !v.alive)
  {
    if e.Exit? {
      var i :| 0 <= i < |before| && Exiting(before, e.slot)[i] == v;
      assert before[i] in before;
    } else {
      StoppersAreOld(before, target, v);
    }
  }

  // At an unchanged target a call asks nobody new: who is stopping after it was alive and stopping before it.
  lemma StoppersAreOld(before: seq<Worker>, target: nat, v: Worker)
    requires Settled(before, target) && !Reconciled(before, target).raised
    requires v in Reconciled(before, target).workers && v.asked
    ensures v in before && v.alive
  {
    ReapExact(before);
    var reaped := Reap(before).workers;
    var asked := Ask(reaped, target);
    FillExact(asked, target);
    var i :| 0 <= i < |Fill(asked, target)| && Fill(asked, target)[i] == v;
    assert asked[i] == v;
    assert reaped[i] in before;
  }

  // Convergence. Start from any pool, whatever the earlier targets; reconcile it to a target and keep that target. Once
  // every process that was then asked to stop has exited, the next call leaves exactly slots 1..target, each with one
  // live process, none of them asked to stop.
  lemma PoolConverges(ws: seq<Worker>, events: seq<Event>, target: nat, max: nat)
    requires Sound(ws, max) && target <= max && !Reconciled(ws, target).raised && AtTarget(events, target)
    requires var first := Reconciled(ws, target).workers;
      && !Run(first, events + [Reconcile(target)]).raised
      && forall i :: 0 <= i < |first| && first[i].asked ==> Exit(first[i].slot) in events
    ensures var last := Run(Reconciled(ws, target).workers, events + [Reconcile(target)]).workers;
      && SlotsDistinct(last)
      && (forall slot: nat :: HasSlot(last, slot) <==> 1 <= slot <= target)
      && forall i :: 0 <= i < |last| ==> last[i].alive && !last[i].asked
  {
    var first := Reconciled(ws, target).workers;
    var all := events + [Reconcile(target)];
    assert all[..|all| - 1] == events;
    ReconcileKeepsSound(ws, target, max);
    ReconcileReaches(ws, target);
    EveryRunIsSound(first, all, max);
    OnlyLeftoversStop(first, events, target);
    StoppingNeverRises(first, all, target);
    var before := Run(first, events).workers;
    ReconcileReaches(before, target);
    var last := Reconciled(before, target).workers;
    StoppingNeverRises(first, events, target);
    forall i | 0 <= i < |last| ensures !last[i].asked {
      StoppersHaveExited(first, events, target, last[i]);
    }
    NoneStopping(last);
    NothingStoppingIsExact(last, target, max);
  }

  lemma StoppersHaveExited(first: seq<Worker>, events: seq<Event>, target: nat, v: Worker)
    requires Settled(first, target) && AtTarget(events, target) && !Run(first, events).raised
    requires Settled(Run(first, events).workers, target) && !Reconciled(Run(first, events).workers, target).raised
    requires forall i :: 0 <= i < |first| && first[i].asked ==> Exit(first[i].slot) in events
    ensures !(v in Reconciled(Run(first, events).workers, target).workers && v.asked)
  {
    var before := Run(first, events).workers;
    var last := Reconciled(before, target).workers;
    if v in last && v.asked {
      OnlyLeftoversStop(first, events, target);
      StoppersAreOld(before, target, v);
    }
  }
}
