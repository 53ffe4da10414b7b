/**
 Processes exit while reconcile_worker_pool of tools/openai_oauth_reauth_worker.py (lines 320-335) is running. Its first
 loop looks at each process once, so an exit during the call is one before it or one after it; and so every run with
 such exits is a run of PoolSpec.
 */
module PoolInterleaving {
  import opened PoolSpec

  // These slots' processes have exited.
  function Gone(ws: seq<Worker>, slots: set<nat>): (r: seq<Worker>)
    ensures |r| == |ws|
    ensures forall i :: 0 <= i < |ws| ==> r[i] == ws[i].(alive := ws[i].alive && ws[i].slot !in slots)
  {
    seq(|ws|, i requires 0 <= i < |ws| => ws[i].(alive := ws[i].alive && ws[i].slot !in slots))
  }

  // Who exits just before the k-th step of a loop.
  type Exits = nat -> set<nat>

  // The first loop from its k-th look on: `kept` are those it has looked at and left, `rest` those it has still to look
  // at.
  function WatchedReap(kept: seq<Worker>, rest: seq<Worker>, exits: Exits, k: nat): Outcome
    decreases |rest|
  {
    if rest == [] then Outcome(false, kept)
    else
      var left, now := Gone(kept, exits(k)), Gone(rest, exits(k));
      if now[0].alive then WatchedReap(left + [now[0]], now[1..], exits, k + 1)
      else if now[0].asked then WatchedReap(left, now[1..], exits, k + 1)
      else Outcome(true, left + now[1..])
  }

  // The second loop from its k-th item on.
  function WatchedAsk(ws: seq<Worker>, target: nat, exits: Exits, k: nat): seq<Worker>
    requires k <= |ws|
    decreases |ws| - k
  {
    if k == |ws| then ws
    else
      var now := Gone(ws, exits(k));
      WatchedAsk(now[k := now[k].(asked := now[k].asked || now[k].slot > target)], target, exits, k + 1)
  }

  // The third loop, up to slot n.
  function WatchedFill(ws: seq<Worker>, n: nat, exits: Exits): seq<Worker> {
    if n == 0 then ws
    else
      var now := Gone(WatchedFill(ws, n - 1, exits), exits(n));
      if HasSlot(now, n) then now else now + [Worker(n, true, false)]
  }

  // A whole call with exits before every look, every item of the second loop and every slot of the third.
  function WatchedCall(ws: seq<Worker>, target: nat, looks: Exits, asks: Exits, starts: Exits): Outcome {
    var reaped := WatchedReap([], ws, looks, 0);
    if reaped.raised then reaped
    else Outcome(false, WatchedFill(WatchedAsk(reaped.workers, target, asks, 0), target, starts))
  }

  // ---- One call ----

  function Slots(ws: seq<Worker>): set<nat> { set w | w in ws :: w.slot }

  lemma SlotsGone(ws: seq<Worker>, slots: set<nat>)
    ensures Slots(Gone(ws, slots)) == Slots(ws)
  {
    var r := Gone(ws, slots);
    forall w | w in ws ensures w.slot in Slots(r) {
      var i :| 0 <= i < |ws| && ws[i] == w;
      assert r[i] in r;
    }
    forall w | w in r ensures w.slot in Slots(ws) {
      var i :| 0 <= i < |r| && r[i] == w;
      assert ws[i] in ws;
    }
  }

  lemma HasSlotGone(ws: seq<Worker>, slots: set<nat>, n: nat)
    ensures HasSlot(Gone(ws, slots), n) <==> HasSlot(ws, n)
  {
    var r := Gone(ws, slots);
    if HasSlot(ws, n) {
      var i :| 0 <= i < |ws| && ws[i].slot == n;
      assert r[i].slot == n;
    }
    if HasSlot(r, n) {
      var i :| 0 <= i < |r| && r[i].slot == n;
      assert ws[i].slot == n;
    }
  }

  // Only the exits among the workers' own slots matter.
  lemma GoneAlike(ws: seq<Worker>, a: set<nat>, b: set<nat>)
    requires forall i :: 0 <= i < |ws| ==> (ws[i].slot in a <==> ws[i].slot in b)
    ensures Gone(ws, a) == Gone(ws, b)
  {}

  lemma GoneTwice(ws: seq<Worker>, a: set<nat>, b: set<nat>)
    ensures Gone(Gone(ws, a), b) == Gone(ws, a + b)
  {}

  lemma GoneParts(a: seq<Worker>, b: seq<Worker>, slots: set<nat>)
    ensures Gone(a + b, slots) == Gone(a, slots) + Gone(b, slots)
  {}

  lemma {:induction false} KeptFront(w: Worker, rest: seq<Worker>, n: nat)
    requires n <= |rest|
    ensures var ws := [w] + rest;
      Kept(ws, ws, n + 1) == if w.alive then [w] + Kept(rest, rest, n) else Kept(rest, rest, n)
  {
    var ws := [w] + rest;
    if n == 0 {
      assert Kept(ws, ws, 0) == [];
    } else {
      KeptFront(w, rest, n - 1);
      assert ws[n] == rest[n - 1];
    }
  }

  // The first loop, told from the front.
  lemma ReapFront(w: Worker, rest: seq<Worker>)
    ensures Reap([w] + rest) ==
      if w.alive then Outcome(Reap(rest).raised, [w] + Reap(rest).workers)
      else if w.asked then Reap(rest)
      else Outcome(true, rest)
  {
    var ws := [w] + rest;
    assert ws[1..] == rest;
    if !Crashed(w) {
      var k := FirstCrash(rest);
      assert FirstCrash(ws) == k + 1;
      KeptFront(w, rest, k);
      assert k < |rest| ==> ws[k + 2..] == rest[k + 1..];
    } else {
      assert FirstCrash(ws) == 0 && Kept(ws, ws, 0) == [];
    }
  }

  lemma ReapSlots(ws: seq<Worker>)
    ensures Slots(Reap(ws).workers) <= Slots(ws)
  {
    ReapExact(ws);
  }

  // Who is not among them is not touched.
  lemma GoneOthers(ws: seq<Worker>, slots: set<nat>)
    requires Slots(ws) !! slots
    ensures Gone(ws, slots) == ws
  {
    forall i | 0 <= i < |ws| ensures ws[i].slot !in slots {
      assert ws[i] in ws;
    }
  }

  // Exits among `mine` only, for workers that are all mine.
  lemma GoneMine(ws: seq<Worker>, slots: set<nat>, mine: set<nat>)
    requires Slots(ws) <= mine
    ensures Gone(ws, slots * mine) == Gone(ws, slots)
  {
    forall i | 0 <= i < |ws| ensures ws[i].slot in slots * mine <==> ws[i].slot in slots {
      assert ws[i] in ws;
    }
    GoneAlike(ws, slots * mine, slots);
  }

  // Exits of those still to look at, taken before the loop.
  lemma EarlyStep(rest: seq<Worker>, exits: set<nat>, w: Worker, tail: seq<Worker>, early: set<nat>)
    requires Gone(rest, exits) == [w] + tail && early <= Slots(tail) && w.slot !in early
    ensures Gone(rest, exits * Slots(rest) + early) == [w] + Gone(tail, early)
  {
    GoneMine(rest, exits, Slots(rest));
    GoneTwice(rest, exits * Slots(rest), early);
    GoneParts([w], tail, early);
    assert Gone([w], early) == [w];
  }

  // Exits of those looked at, taken after the loop.
  lemma LateStep(kept: seq<Worker>, exits: set<nat>, others: seq<Worker>, late: set<nat>)
    requires Slots(kept) !! Slots(others)
    ensures Gone(kept + others, exits * Slots(kept) + late) == Gone(Gone(kept, exits) + others, late)
  {
    GoneTwice(kept + others, exits * Slots(kept), late);
    GoneParts(kept, others, exits * Slots(kept));
    GoneMine(kept, exits, Slots(kept));
    GoneOthers(others, exits * Slots(kept));
  }

  lemma HeadApart(rest: seq<Worker>, exits: set<nat>)
    requires rest != [] && SlotsDistinct(rest)
    ensures var now := Gone(rest, exits);
      now[0].slot !in Slots(now[1..]) && SlotsDistinct(now[1..]) && Slots(now[1..]) + {now[0].slot} == Slots(rest)
  {
    var now := Gone(rest, exits);
    SlotsGone(rest, exits);
    assert now == [now[0]] + now[1..];
  }

  // What PoolSpec.Reap makes of a look at the first process, followed by the rest of the loop.
  lemma LookReaps(rest: seq<Worker>, exits: set<nat>, early: set<nat>)
    requires rest != [] && SlotsDistinct(rest) && early <= Slots(Gone(rest, exits)[1..])
    ensures var now := Gone(rest, exits);
      var w, tail := now[0], Reap(Gone(now[1..], early));
      (w.alive || w.asked) ==>
        Reap(Gone(rest, exits * Slots(rest) + early)) ==
        Outcome(tail.raised, if w.alive then [w] + tail.workers else tail.workers)
  {
    var now := Gone(rest, exits);
    var w, tail := now[0], now[1..];
    assert now == [w] + tail;
    HeadApart(rest, exits);
    EarlyStep(rest, exits, w, tail, early);
    ReapFront(w, Gone(tail, early));
  }

  lemma LookStep(kept: seq<Worker>, rest: seq<Worker>, exits: set<nat>, early: set<nat>, late: set<nat>)
    requires rest != [] && SlotsDistinct(rest) && Slots(kept) !! Slots(rest)
    requires early <= Slots(Gone(rest, exits)[1..])
    ensures var now := Gone(rest, exits);
      var w, tail := now[0], Reap(Gone(now[1..], early));
      var all := Reap(Gone(rest, exits * Slots(rest) + early));
      (w.alive || w.asked) ==>
        && all.raised == tail.raised
        && Gone(kept + all.workers, exits * Slots(kept) + late) ==
           Gone((if w.alive then Gone(kept, exits) + [w] else Gone(kept, exits)) + tail.workers, late)
  {
    LookReaps(rest, exits, early);
    var all := Reap(Gone(rest, exits * Slots(rest) + early)).workers;
    SlotsGone(rest, exits * Slots(rest) + early);
    ReapSlots(Gone(rest, exits * Slots(rest) + early));
    LateStep(kept, exits, all, late);
    var w, tail := Gone(rest, exits)[0], Reap(Gone(Gone(rest, exits)[1..], early)).workers;
    assert w.alive ==> Gone(kept, exits) + ([w] + tail) == (Gone(kept, exits) + [w]) + tail;
  }

  lemma CrashStep(kept: seq<Worker>, rest: seq<Worker>, exits: set<nat>)
    requires rest != [] && SlotsDistinct(rest) && Slots(kept) !! Slots(rest) && Crashed(Gone(rest, exits)[0])
    ensures var all := Reap(Gone(rest, exits * Slots(rest)));
      all.raised && Gone(kept + all.workers, exits * Slots(kept)) == Gone(kept, exits) + Gone(rest, exits)[1..]
  {
    var now := Gone(rest, exits);
    var w, tail := now[0], now[1..];
    assert now == [w] + tail;
    HeadApart(rest, exits);
    GoneMine(rest, exits, Slots(rest));
    ReapFront(w, tail);
    LateStep(kept, exits, tail, {});
    assert exits * Slots(kept) + {} == exits * Slots(kept);
    assert Gone(Gone(kept, exits) + tail, {}) == Gone(kept, exits) + tail;
  }

  /**
   The first loop: exits of processes it has still to look at might as well have come before it, and exits of those it
   has looked at after it.
   */
  lemma {:induction false} WatchedReapIsReap(kept: seq<Worker>, rest: seq<Worker>, exits: Exits, k: nat)
    returns (early: set<nat>, late: set<nat>)
    requires Slots(kept) !! Slots(rest) && SlotsDistinct(rest)
    ensures early <= Slots(rest)
    ensures var reaped := Reap(Gone(rest, early));
      WatchedReap(kept, rest, exits, k) == Outcome(reaped.raised, Gone(kept + reaped.workers, late))
    decreases |rest|
  {
    if rest == [] {
      early, late := {}, {};
      assert Reap(Gone(rest, {})) == Outcome(false, []);
      assert Gone(kept + [], {}) == kept;
    } else {
      var left, now := Gone(kept, exits(k)), Gone(rest, exits(k));
      var w, tail := now[0], now[1..];
      HeadApart(rest, exits(k));
      SlotsGone(kept, exits(k));
      if Crashed(w) {
        early, late := exits(k) * Slots(rest), exits(k) * Slots(kept);
        CrashStep(kept, rest, exits(k));
      } else {
        var kept' := if w.alive then left + [w] else left;
        assert Slots(left + [w]) == Slots(left) + {w.slot};
        early, late := WatchedReapIsReap(kept', tail, exits, k + 1);
        LookStep(kept, rest, exits(k), early, late);
        early, late := exits(k) * Slots(rest) + early, exits(k) * Slots(kept) + late;
      }
    }
  }

  lemma {:induction false} WatchedAskIsAsk(ws: seq<Worker>, target: nat, exits: Exits, k: nat) returns (late: set<nat>)
    requires k <= |ws|
    ensures |WatchedAsk(ws, target, exits, k)| == |ws|
    ensures forall i :: 0 <= i < |ws| ==>
      WatchedAsk(ws, target, exits, k)[i] ==
      Gone(ws, late)[i].(asked := ws[i].asked || (i >= k && ws[i].slot > target))
    decreases |ws| - k
  {
    if k == |ws| {
      late := {};
    } else {
      var now := Gone(ws, exits(k));
      late := WatchedAskIsAsk(now[k := now[k].(asked := now[k].asked || now[k].slot > target)], target, exits, k + 1);
      late := exits(k) + late;
    }
  }

  // The third loop starts the same processes whoever is alive.
  lemma {:induction false} FillGone(ws: seq<Worker>, slots: set<nat>, n: nat)
    requires slots <= Slots(ws)
    ensures Fill(Gone(ws, slots), n) == Gone(Fill(ws, n), slots)
  {
    if n > 0 {
      FillGone(ws, slots, n - 1);
      var before := Fill(ws, n - 1);
      HasSlotGone(before, slots, n);
      if !HasSlot(before, n) {
        FillExact(ws, n - 1);
        FreshIsNotGone(ws, before, slots, n);
        GoneParts(before, [Worker(n, true, false)], slots);
      }
    }
  }

  lemma FreshIsNotGone(ws: seq<Worker>, before: seq<Worker>, slots: set<nat>, n: nat)
    requires slots <= Slots(ws) && ws <= before && !HasSlot(before, n)
    ensures Gone([Worker(n, true, false)], slots) == [Worker(n, true, false)]
  {
    forall slot: nat | slot in slots ensures HasSlot(before, slot) {
      var w :| w in ws && w.slot == slot;
      var i :| 0 <= i < |ws| && ws[i] == w;
      assert before[i] == ws[i];
    }
  }

  // A process that is not yet started cannot exit.
  lemma {:induction false} WatchedFillIsFill(ws: seq<Worker>, n: nat, exits: Exits) returns (late: set<nat>)
    ensures WatchedFill(ws, n, exits) == Gone(Fill(ws, n), late)
  {
    if n == 0 {
      late := {};
    } else {
      late := WatchedFillIsFill(ws, n - 1, exits);
      var before := Fill(ws, n - 1);
      GoneTwice(before, late, exits(n));
      HasSlotGone(before, late + exits(n), n);
      late := late + exits(n);
      if !HasSlot(before, n) {
        var others := late - {n};
        forall i | 0 <= i < |before| ensures before[i].slot in late <==> before[i].slot in others {}
        GoneAlike(before, late, others);
        GoneParts(before, [Worker(n, true, false)], others);
        late := others;
      }
    }
  }

  // The last two loops on a pool some of whose processes have just exited.
  lemma RestIsRest(ws: seq<Worker>, gone: set<nat>, target: nat, asks: Exits, starts: Exits) returns (late: set<nat>)
    ensures WatchedFill(WatchedAsk(Gone(ws, gone), target, asks, 0), target, starts) ==
      Gone(Fill(Ask(ws, target), target), late)
  {
    var asked := WatchedAskIsAsk(Gone(ws, gone), target, asks, 0);
    var all := (gone + asked) * Slots(Ask(ws, target));
    GoneMine(Ask(ws, target), gone + asked, Slots(Ask(ws, target)));
    assert WatchedAsk(Gone(ws, gone), target, asks, 0) == Gone(Ask(ws, target), all);
    var started := WatchedFillIsFill(Gone(Ask(ws, target), all), target, starts);
    FillGone(Ask(ws, target), all, target);
    GoneTwice(Fill(Ask(ws, target), target), all, started);
    late := all + started;
  }

  /**
   However processes exit while a call is running, it ends as if some of them had exited before it and the others after
   it; in particular it raises exactly if the call between them does.
   */
  lemma WatchedCallIsCall(ws: seq<Worker>, target: nat, looks: Exits, asks: Exits, starts: Exits)
    returns (early: set<nat>, late: set<nat>)
    requires SlotsDistinct(ws)
    ensures early <= Slots(ws)
    ensures var called := Reconciled(Gone(ws, early), target);
      WatchedCall(ws, target, looks, asks, starts) == Outcome(called.raised, Gone(called.workers, late))
  {
    early, late := WatchedReapIsReap([], ws, looks, 0);
    var reaped := Reap(Gone(ws, early));
    assert [] + reaped.workers == reaped.workers;
    if !reaped.raised {
      late := RestIsRest(reaped.workers, late, target, asks, starts);
    }
  }

  // ---- Runs ----

  // What happens to the pool: processes exit between two calls, or a call is made, during which others exit.
  datatype Moment = Leave(slots: set<nat>) | Call(target: nat, looks: Exits, asks: Exits, starts: Exits)

  function WatchedRun(ws: seq<Worker>, moments: seq<Moment>): Outcome {
    if moments == [] then Outcome(false, ws)
    else
      var before := WatchedRun(ws, moments[..|moments| - 1]);
      if before.raised then before
      else
        match moments[|moments| - 1]
        case Leave(slots) => Outcome(false, Gone(before.workers, slots))
        case Call(target, looks, asks, starts) => WatchedCall(before.workers, target, looks, asks, starts)
  }

  // These processes exit, one by one.
  lemma {:induction false} AllExit(ws: seq<Worker>, events: seq<Event>, slots: set<nat>) returns (more: seq<Event>)
    requires !Run(ws, events).raised
    ensures forall e :: e in more ==> e.Exit?
    ensures Run(ws, events + more) == Outcome(false, Gone(Run(ws, events).workers, slots))
    decreases |slots|
  {
    if slots == {} {
      more := [];
      assert events + more == events;
    } else {
      var slot :| slot in slots;
      more := AllExit(ws, events, slots - {slot});
      var before := events + more;
      assert (before + [Exit(slot)])[..|before|] == before;
      more := more + [Exit(slot)];
      assert events + more == before + [Exit(slot)];
    }
  }

  // The call, as an event.
  lemma OneCall(ws: seq<Worker>, events: seq<Event>, target: nat)
    requires !Run(ws, events).raised
    ensures Run(ws, events + [Reconcile(target)]) == Reconciled(Run(ws, events).workers, target)
  {
    assert (events + [Reconcile(target)])[..|events|] == events;
  }

  lemma CallKeepsDistinct(ws: seq<Worker>, target: nat)
    requires SlotsDistinct(ws)
    ensures SlotsDistinct(Reconciled(ws, target).workers)
  {
    ReapExact(ws);
    FillExact(Ask(Reap(ws).workers, target), target);
  }

  // Every call of the events is one of the moments.
  ghost predicate Targets(moments: seq<Moment>, events: seq<Event>) {
    forall e :: e in events && e.Reconcile? ==> exists m :: m in moments && m.Call? && m.target == e.target
  }

  /**
   Every run in which processes exit at any time, during calls too, is a run of PoolSpec: it raises if and only if that
   does, with the same pool; only if it raised can there be processes that exited since, during the call that raised.
   */
  lemma {:induction false} WatchedRunIsRun(ws: seq<Worker>, moments: seq<Moment>)
    returns (events: seq<Event>, late: set<nat>)
    requires SlotsDistinct(ws)
    ensures Run(ws, events).raised == WatchedRun(ws, moments).raised
    ensures WatchedRun(ws, moments).workers == Gone(Run(ws, events).workers, late)
    ensures !Run(ws, events).raised ==> late == {}
    ensures Targets(moments, events) && SlotsDistinct(WatchedRun(ws, moments).workers)
  {
    if moments == [] {
      events, late := [], {};
    } else {
      var init, m := moments[..|moments| - 1], moments[|moments| - 1];
      events, late := WatchedRunIsRun(ws, init);
      if !Run(ws, events).raised {
        assert Gone(Run(ws, events).workers, {}) == Run(ws, events).workers;
        events, late := OneMoment(ws, events, m);
      }
    }
  }

  // One more moment.
  lemma OneMoment(ws: seq<Worker>, events: seq<Event>, m: Moment) returns (events': seq<Event>, late: set<nat>)
    requires !Run(ws, events).raised && SlotsDistinct(Run(ws, events).workers)
    ensures var before, after := Run(ws, events).workers, Run(ws, events');
      var watched := if m.Leave? then Outcome(false, Gone(before, m.slots))
                     else WatchedCall(before, m.target, m.looks, m.asks, m.starts);
      && watched == Outcome(after.raised, Gone(after.workers, late)) && SlotsDistinct(watched.workers)
    ensures !Run(ws, events').raised ==> late == {}
    ensures forall e :: e in events' && e.Reconcile? ==> e in events || (m.Call? && e.target == m.target)
  {
    var before := Run(ws, events).workers;
    match m
    case Leave(slots) =>
      var more := AllExit(ws, events, slots);
      events', late := events + more, {};
      assert Gone(Gone(before, slots), {}) == Gone(before, slots);
    case Call(target, looks, asks, starts) =>
      var early;
      early, late := WatchedCallIsCall(before, target, looks, asks, starts);
      var more := AllExit(ws, events, early);
      CallKeepsDistinct(Gone(before, early), target);
      OneCall(ws, events + more, target);
      events' := events + more + [Reconcile(target)];
      if !Run(ws, events').raised {
        var last := AllExit(ws, events', late);
        assert Gone(Gone(Run(ws, events').workers, late), {}) == Gone(Run(ws, events').workers, late);
        events', late := events' + last, {};
      }
  }

  // So soundness holds of them too.
  lemma WatchedRunsAreSound(ws: seq<Worker>, moments: seq<Moment>, max: nat)
    requires Sound(ws, max) && forall m :: m in moments && m.Call? ==> m.target <= max
    ensures Sound(WatchedRun(ws, moments).workers, max)
  {
    var events, late := WatchedRunIsRun(ws, moments);
    EveryRunIsSound(ws, events, max);
  }
}
