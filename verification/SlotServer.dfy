/**
 The handlers and callbacks of backend/src/main.cpp over the variables they share. Each method is one
 turn of the event loop; its contract is the matching step of SlotState.
 */
module SlotServer {
  import opened Base
  import opened SlotState
  import opened SlotSafety
  import opened Text

  class Server {
    var slots: seq<Slot>
    const maxSlots: nat
    var generation: map<nat, nat>
    var launches: map<Worker, Launch>
    var processes: map<Worker, Process>
    var pendingHostCancels: map<string, Held>
    var timers: map<Timer, TimerInfo>
    var liveSunshineUids: set<string>
    var playerUids: map<nat, string>
    var playerRetiring: map<nat, Worker>
    var nextWorker: Worker
    var nextTimer: Timer
    /** Every /cancel put on the wire so far. */
    var log: seq<Output>

    function Now(): State
      reads this
    {
      State(slots, maxSlots, generation, launches, processes, pendingHostCancels, timers, liveSunshineUids, playerUids,
            playerRetiring, nextWorker, nextTimer, log)
    }

    ghost predicate Valid()
      reads this
    {
      Inv(Now())
    }

    constructor (max: nat)
      ensures Now() == Initial(max) && Valid()
    {
      slots := seq(TOTAL_SLOTS, _ => FREE);
      maxSlots := if max < TOTAL_SLOTS then TOTAL_SLOTS else max;
      generation, launches, processes, pendingHostCancels, timers := map[], map[], map[], map[], map[];
      liveSunshineUids, playerUids, playerRetiring, nextWorker, nextTimer, log := {}, map[], map[], 0, 0, [];
    }

    // ----- Shared helpers -----------------------------------------------------------------------

    method AnyOtherSlotLive(slot: int, host: string) returns (live: bool)
      ensures live == AnyOtherLive(slots, slot, host)
      ensures live <==> exists i :: 0 <= i < |slots| && i != slot && slots[i].worker.Some? && slots[i].host in {"", host}
    {
      live := false;
      for i := 0 to |slots|
        invariant live == exists k :: 0 <= k < i && k != slot && LiveOnHost(slots[k], host)
      {
        if i != slot && LiveOnHost(slots[i], host) { live := true; }
      }
    }

    /** The lowest released slot above the reserved block, or a new one while the ceiling allows. */
    method AcquireSlot() returns (index: Option<nat>)
      requires TOTAL_SLOTS <= |slots|
      modifies this`slots
      ensures (index, Now()) == Acquire(old(Now()), TOTAL_SLOTS)
    {
      for i := TOTAL_SLOTS to |slots|
        invariant slots == old(slots)
        invariant Acquire(Now(), TOTAL_SLOTS) == Acquire(Now(), i)
      {
        if !InUse(slots[i]) { return Some(i); }
      }
      if |slots| >= maxSlots { return None; }
      slots := slots + [FREE];
      index := Some(|slots| - 1);
    }

    method FindUid(uid: string) returns (index: Option<nat>)
      ensures index == IndexOfUid(Now(), uid, 0)
    {
      if uid == "" { return None; }
      for i := 0 to |slots|
        invariant IndexOfUid(Now(), uid, 0) == IndexOfUid(Now(), uid, i)
      {
        if slots[i].uid == uid { return Some(i); }
      }
      index := None;
    }

    method DetachWorkerSlot(i: nat) returns (previous: Option<Worker>)
      requires i < |slots|
      modifies this`slots, this`processes
      ensures Now() == Detach(old(Now()), i)
      ensures previous == old(slots[i].worker)
    {
      previous := slots[i].worker;
      slots := slots[i := FREE];
      if previous.Some? && previous.value in processes {
        processes := processes[previous.value := processes[previous.value].(handled := false)];
      }
    }

    method DropPendingHostCancel(uid: string, host: string) returns (dropped: bool)
      modifies this`pendingHostCancels
      ensures Now() == DropHeld(old(Now()), uid, host)
      ensures dropped <==> uid in old(pendingHostCancels) && old(pendingHostCancels)[uid].host == host
    {
      if uid !in pendingHostCancels || pendingHostCancels[uid].host != host { return false; }
      pendingHostCancels := pendingHostCancels - {uid};
      dropped := true;
    }

    method HoldCancel(info: TimerInfo)
      modifies this`pendingHostCancels, this`timers, this`nextTimer
      ensures Now() == Hold(old(Now()), info)
    {
      var _ := DropPendingHostCancel(info.uid, info.host);
      pendingHostCancels := pendingHostCancels[info.uid := Held(nextTimer, info.host)];
      timers := timers[nextTimer := info];
      nextTimer := nextTimer + 1;
    }

    method QueueLaunch(l: Launch)
      modifies this`generation, this`launches, this`nextWorker
      ensures Now() == Enqueue(old(Now()), l)
    {
      var gen := (if l.slot in generation then generation[l.slot] else 0) + 1;
      generation := generation[l.slot := gen];
      launches := launches[nextWorker := l.(gen := gen)];
      nextWorker := nextWorker + 1;
    }

    // ----- /start -------------------------------------------------------------------------------

    /** How many distinct viewers the host would carry with this request. */
    method CountViewers(q: StartRequest) returns (viewers: set<Viewer>)
      ensures viewers == Viewers(Now(), q, 0)
    {
      viewers := {};
      for i := 0 to |slots|
        invariant viewers + Viewers(Now(), q, i) == Viewers(Now(), q, 0)
      {
        var sl := slots[i];
        if Live(Now(), i) && sl.host == q.host {
          viewers := viewers + {ViewerOf(q, if sl.uid == "" then "#" + Decimal(i) else sl.uid, sl.app)};
        }
      }
      viewers := viewers + {ViewerOf(q, if q.device == "" then "#new" else q.device, q.app)};
    }

    method SelectSlot(q: StartRequest) returns (slot: Option<nat>)
      requires TOTAL_SLOTS <= |slots|
      modifies this`slots
      ensures (slot, Now()) == ChooseSlot(old(Now()), q)
    {
      if q.standby {
        return Some(if q.sessionSlot < 0 then 0 else if q.sessionSlot > 1 then 1 else q.sessionSlot);
      }
      var viewers := CountViewers(q);
      if |viewers| > q.backend.cap { return None; }
      slot := Some(0);
      if Spared(Now(), q, 0) {
        slot := FindUid(q.device);
        if slot.None? || slots[slot.value].host != q.host || StreamsAnotherApp(Now(), q, slot.value) {
          slot := AcquireSlot();
        }
      }
    }

    /** The take-over: a standby frees its own slot; a fresh launch frees what it may reclaim. */
    method TakeOverSlots(q: StartRequest, slot: nat) returns (previous: Option<Worker>)
      requires TOTAL_SLOTS <= |slots| && slot < |slots|
      requires !q.standby && slot < OWNER_SLOTS ==> !Spared(Now(), q, slot)
      modifies this`slots, this`processes
      ensures Now() == Reclaim(old(Now()), q, slot)
      ensures previous == old(slots[slot].worker)
    {
      hide Spared, Detach;
      if q.standby {
        previous := DetachWorkerSlot(slot);
        return;
      }
      previous := None;
      for i := 0 to OWNER_SLOTS
        invariant |slots| == old(|slots|)
        invariant TakeOver(old(Now()), q, 0) == TakeOver(Now(), q, i)
        invariant forall k :: i <= k < |slots| ==> slots[k] == old(slots)[k]
        invariant slot < i ==> previous == old(slots[slot].worker)
      {
        ghost var was := Now();
        if slot >= i { SparedIsLocal(old(Now()), was, q, slot); }
        if !Spared(Now(), q, i) {
          var w := DetachWorkerSlot(i);
          OthersAfterDetach(was, i);
          if i == slot { previous := w; }
        }
      }
      if slot >= OWNER_SLOTS { previous := DetachWorkerSlot(slot); }
    }

    method Start(q: StartRequest)
      requires TOTAL_SLOTS <= |slots|
      modifies this
      ensures Now() == OwnerStart(old(Now()), q)
    {
      if q.host == "" { return; }
      var choice := SelectSlot(q);
      if choice.None? { return; }
      if !q.standby { ChosenSlotIsOurs(old(Now()), q); }
      var previous := TakeOverSlots(q, choice.value);
      if q.app <= 0 { return; }
      var uid := Uid(q.device);
      if uid != "" { var _ := DropPendingHostCancel(uid, q.host); }
      if !q.chainOk { return; }
      QueueLaunch(Launch(choice.value, 0, false, q.standby, q.device, uid, q.host, q.token, q.app, q.display,
                         FirstStage(previous, q.display)));
    }

    // ----- A guest joins ------------------------------------------------------------------------

    method Join(j: JoinRequest)
      requires OWNER_SLOTS <= j.slot < TOTAL_SLOTS <= |slots|
      modifies this
      ensures Now() == GuestJoin(old(Now()), j)
    {
      if j.host == "" || !j.accepted { return; }
      var previous := DetachWorkerSlot(j.slot);
      if previous.None? && j.slot in playerRetiring && playerRetiring[j.slot] in processes {
        previous := Some(playerRetiring[j.slot]);
      }
      playerRetiring := playerRetiring - {j.slot};
      if !j.chainOk { return; }
      var relaunch := ChainRelaunch(Now(), j);
      var uid := if relaunch then playerUids[j.slot] else j.freshUid;
      playerUids := playerUids[j.slot := uid];
      if relaunch { var _ := DropPendingHostCancel(uid, j.host); }
      QueueLaunch(Launch(j.slot, 0, true, false, "", uid, j.host, "", j.app, false, FirstStage(previous, false)));
    }

    // ----- The launch's callbacks ---------------------------------------------------------------

    method OnPreviousDestroyed(w: Worker)
      modifies this`launches
      ensures Now() == PreviousGone(old(Now()), w)
    {
      if w in launches && launches[w].stage.AwaitPrevious? && launches[w].stage.previous !in processes {
        launches := launches[w := launches[w].(stage := if launches[w].display then AwaitDisplay else AwaitRouter)];
      }
    }

    method OnDisplayAnswer(w: Worker, ok: bool)
      modifies this`launches
      ensures Now() == DisplayAnswer(old(Now()), w, ok)
    {
      if w !in launches || launches[w].stage != AwaitDisplay { return; }
      if !Newest(Now(), launches[w]) || !ok {
        launches := launches - {w};
        return;
      }
      launches := launches[w := launches[w].(stage := AwaitRouter)];
    }

    method OnRouterAnswer(w: Worker, spawned: bool)
      modifies this`launches, this`slots, this`processes
      ensures Now() == RouterAnswer(old(Now()), w, spawned)
    {
      if w !in launches || launches[w].stage != AwaitRouter { return; }
      var l := launches[w];
      launches := launches - {w};
      if !Newest(Now(), l) || !spawned || l.slot >= |slots| { return; }
      processes := processes[w := Process(l.slot, l.guest, l.standby, l.device, l.uid, l.host, true, false)];
      var token := if l.guest then slots[l.slot].token else l.token;
      slots := slots[l.slot := Slot(Some(w), l.uid, l.host, token, l.app)];
    }

    method OnResponseReady(w: Worker, ok: bool)
      modifies this`liveSunshineUids, this`slots
      ensures Now() == Responded(old(Now()), w, ok)
    {
      if w !in processes { return; }
      var p := processes[w];
      if ok {
        liveSunshineUids := liveSunshineUids + {p.uid};
      } else if p.standby && p.slot < |slots| && slots[p.slot].worker == Some(w) {
        slots := slots[p.slot := FREE.(app := slots[p.slot].app)];
      }
    }

    // ----- A worker ends ------------------------------------------------------------------------

    method CancelGuestHostSessionSoon(slot: nat, host: string, uid: string, known: bool)
      modifies this`pendingHostCancels, this`timers, this`nextTimer, this`liveSunshineUids
      ensures Now() == GuestCancelSoon(old(Now()), slot, host, uid, known)
    {
      var other := AnyOtherSlotLive(slot, host);
      if !known || uid == "" || other {
        liveSunshineUids := liveSunshineUids - {uid};
        return;
      }
      HoldCancel(TimerInfo(uid, host, slot, true));
    }

    method OnWorkerEnded(w: Worker, known: bool)
      modifies this
      ensures Now() == WorkerEnded(old(Now()), w, known)
    {
      if w !in processes || processes[w].ended { return; }
      var p := processes[w];
      processes := processes[w := p.(handled := false, ended := true)];
      if !p.handled { return; }
      if p.guest {
        CancelGuestHostSessionSoon(p.slot, p.host, p.uid, known);
      } else {
        var siblingLive := AnyOtherSlotLive(p.slot, p.host);
        if !siblingLive { HoldCancel(TimerInfo(p.uid, p.host, p.slot, false)); }
      }
      if p.slot < |slots| && slots[p.slot].worker == Some(w) { slots := slots[p.slot := FREE]; }
    }

    method OnWorkerDestroyed(w: Worker)
      modifies this`processes
      ensures Now() == WorkerDestroyed(old(Now()), w)
    {
      if w in processes && processes[w].ended { processes := processes - {w}; }
    }

    // ----- A held cancel's timer ----------------------------------------------------------------

    method OnTimeout(t: Timer, known: bool)
      modifies this
      ensures Now() == TimerFired(old(Now()), t, known)
    {
      if t !in timers { return; }
      var info := timers[t];
      timers := timers - {t};
      if info.uid !in pendingHostCancels || pendingHostCancels[info.uid].timer != t { return; }
      pendingHostCancels := pendingHostCancels - {info.uid};
      if info.guest { liveSunshineUids := liveSunshineUids - {info.uid}; }
      var other := AnyOtherSlotLive(info.slot, info.host);
      if !known || other { return; }
      if info.guest && info.slot < |slots| && slots[info.slot].worker.Some? && slots[info.slot].host == info.host { return; }
      log := log + [HeldCancel(t, info)];
      liveSunshineUids := liveSunshineUids - {info.uid};
    }

    // ----- Quit and stop ------------------------------------------------------------------------

    method EndPlayerSessions()
      requires TOTAL_SLOTS <= |slots|
      modifies this`slots, this`processes
      ensures Now() == EndPlayers(old(Now()))
    {
      for i := OWNER_SLOTS to TOTAL_SLOTS
        invariant |slots| == old(|slots|)
        invariant EndPlayers(old(Now())) == DetachLive(Now(), i, TOTAL_SLOTS)
      {
        if slots[i].worker.Some? { var _ := DetachWorkerSlot(i); }
      }
    }

    method OnQuit(q: QuitRequest)
      requires TOTAL_SLOTS <= |slots|
      modifies this
      ensures Now() == Quit(old(Now()), q)
    {
      hide Detach, QuitOwns;
      if !q.keep { EndPlayerSessions(); }
      ghost var e := Now();
      for i := 0 to OWNER_SLOTS
        invariant |slots| == |e.slots|
        invariant QuitSlots(e, q, 0) == QuitSlots(Now(), q, i)
      {
        if QuitOwns(Now(), q, i) { var _ := DetachWorkerSlot(i); }
      }
      if q.keep { return; }
      var _ := DropPendingHostCancel(q.uid, q.host);
      liveSunshineUids := liveSunshineUids - {q.uid};
      log := log + [Cancel(q.uid, q.host)];
    }

    method OnStopSession(host: string, order: seq<string>)
      requires TOTAL_SLOTS <= |slots| && Lists(order, liveSunshineUids)
      modifies this
      ensures Now() == StopSession(old(Now()), host, order)
    {
      EndPlayerSessions();
      var _ := DetachWorkerSlot(0);
      var _ := DetachWorkerSlot(1);
      liveSunshineUids := {};
      ghost var before := log;
      for k := 0 to |order|
        invariant Now() == Detach(Detach(EndPlayers(old(Now())), 0), 1).(liveUids := {}, log := log)
        invariant log == before + seq(k, i requires 0 <= i < k => Cancel(order[i], host))
      {
        log := log + [Cancel(order[k], host)];
      }
      log := log + [Cancel("", host)];
    }

    method OnStopPlayer(slot: nat, known: bool)
      requires OWNER_SLOTS <= slot < TOTAL_SLOTS <= |slots|
      modifies this
      ensures Now() == StopPlayer(old(Now()), slot, known)
    {
      if slots[slot].worker.None? { return; }
      var host := slots[slot].host;
      var w := DetachWorkerSlot(slot);
      playerRetiring := playerRetiring[slot := w.value];
      CancelGuestHostSessionSoon(slot, host, if slot in playerUids then playerUids[slot] else "", known);
    }

    method OnPlayerMustDisconnect(slot: nat)
      requires OWNER_SLOTS <= slot < TOTAL_SLOTS <= |slots|
      modifies this`slots, this`processes
      ensures Now() == PlayerMustDisconnect(old(Now()), slot)
    {
      if slots[slot].worker.Some? { var _ := DetachWorkerSlot(slot); }
    }

    /** One turn of the event loop, whatever arrives next. */
    method Turn(e: Event)
      requires Valid() && Possible(Now(), e)
      modifies this
      ensures Now() == Step(old(Now()), e) && Valid()
    {
      hide Inv, OwnerStart, GuestJoin, PreviousGone, DisplayAnswer, RouterAnswer, Responded, WorkerEnded, WorkerDestroyed,
           TimerFired, Quit, StopSession, StopPlayer, PlayerMustDisconnect;
      StepKeepsInv(Now(), e);
      match e
      case EStart(q) => Start(q);
      case EJoin(j) => Join(j);
      case EPreviousGone(w) => OnPreviousDestroyed(w);
      case EDisplay(w, ok) => OnDisplayAnswer(w, ok);
      case ERouter(w, spawned) => OnRouterAnswer(w, spawned);
      case EResponded(w, ok) => OnResponseReady(w, ok);
      case EEnded(w, known) => OnWorkerEnded(w, known);
      case EDestroyed(w) => OnWorkerDestroyed(w);
      case ETimer(t, known) => OnTimeout(t, known);
      case EQuit(q) => OnQuit(q);
      case EStopSession(host, order) => OnStopSession(host, order);
      case EStopPlayer(slot, known) => OnStopPlayer(slot, known);
      case EMustDisconnect(slot) => OnPlayerMustDisconnect(slot);
    }
  }
}
