/** What every step of the stream-slot machine keeps, and what holds over whole runs. */
module SlotSafety {
  import opened Base
  import opened SlotState
  import opened Text

  // ----- The invariant --------------------------------------------------------------------------

  /** A live slot holds a running worker spawned for that very slot, whose ended handler is connected. */
  ghost predicate SlotsHoldTheirWorkers(slots: seq<Slot>, processes: map<Worker, Process>) {
    forall i :: 0 <= i < |slots| && slots[i].worker.Some? ==> Holds(slots[i], i, processes)
  }

  ghost predicate Holds(sl: Slot, i: nat, processes: map<Worker, Process>)
    requires sl.worker.Some?
  {
    var w := sl.worker.value;
    && w in processes && sl.host != ""
    && processes[w].slot == i && processes[w].host == sl.host && processes[w].uid == sl.uid
    && processes[w].handled && !processes[w].ended
  }

  /** Launches are numbered apart per slot, and the newest of a slot faces an empty slot. */
  ghost predicate LaunchesInOrder(launches: map<Worker, Launch>, generation: map<nat, nat>, slots: seq<Slot>) {
    && (forall w :: w in launches ==>
          && launches[w].slot < |slots| && launches[w].host != ""
          && launches[w].slot in generation && launches[w].gen <= generation[launches[w].slot]
          && (launches[w].gen == generation[launches[w].slot] ==> slots[launches[w].slot].worker.None?))
    && (forall v, w :: v in launches && w in launches && v != w && launches[v].slot == launches[w].slot
                       ==> launches[v].gen != launches[w].gen)
  }

  /** A worker is either waiting to be spawned or spawned, and its number is never handed out again. */
  ghost predicate WorkersNumbered(launches: map<Worker, Launch>, processes: map<Worker, Process>, nextWorker: Worker) {
    && (forall w :: w in launches ==> w < nextWorker && w !in processes)
    && (forall w :: w in processes ==> w < nextWorker)
  }

  /** An owner's stream carries the uniqueid of the device that launched it. */
  ghost predicate NamedByDevice(launches: map<Worker, Launch>, processes: map<Worker, Process>) {
    && (forall w :: w in launches && !launches[w].guest ==> launches[w].uid == Uid(launches[w].device))
    && (forall w :: w in processes && !processes[w].guest ==> processes[w].uid == Uid(processes[w].device))
  }

  /** Each held entry names a running timer that captured the same uid and host. */
  ghost predicate EntriesHaveTimers(held: map<string, Held>, timers: map<Timer, TimerInfo>, nextTimer: Timer) {
    && (forall u :: u in held ==>
          held[u].timer in timers && timers[held[u].timer].uid == u && timers[held[u].timer].host == held[u].host)
    && (forall t :: t in timers ==> t < nextTimer)
  }

  ghost predicate Inv(s: State) {
    && TOTAL_SLOTS <= |s.slots|
    && SlotsHoldTheirWorkers(s.slots, s.processes)
    && LaunchesInOrder(s.launches, s.generation, s.slots)
    && WorkersNumbered(s.launches, s.processes, s.nextWorker)
    && NamedByDevice(s.launches, s.processes)
    && EntriesHaveTimers(s.held, s.timers, s.nextTimer)
  }

  ghost predicate SameStream(p: Process, p': Process) {
    p' == p.(handled := p'.handled, ended := p'.ended)
  }

  /** Slots keep their place and only lose workers; a worker that leaves may be disconnected. */
  ghost predicate OnlyFrees(slots: seq<Slot>, processes: map<Worker, Process>, slots': seq<Slot>, processes': map<Worker, Process>) {
    && |slots| <= |slots'|
    && (forall i :: 0 <= i < |slots| ==> slots'[i] == slots[i] || slots'[i].worker.None?)
    && (forall i :: |slots| <= i < |slots'| ==> slots'[i].worker.None?)
    && processes'.Keys == processes.Keys
    && (forall w :: w in processes ==> SameStream(processes[w], processes'[w]))
    && SlotsHoldTheirWorkers(slots', processes')
  }

  /** A step that only frees slots, and leaves the launch queue alone, keeps the invariant. */
  lemma FreeingKeepsInv(s: State, s': State)
    requires Inv(s) && OnlyFrees(s.slots, s.processes, s'.slots, s'.processes)
    requires s'.launches == s.launches && s'.generation == s.generation && s'.nextWorker == s.nextWorker
    requires EntriesHaveTimers(s'.held, s'.timers, s'.nextTimer)
    ensures Inv(s')
  {
    NamesStay(s.launches, s.processes, s'.processes);
    OrderStays(s.launches, s.generation, s.slots, s'.slots);
    hide Uid, Holds, EntriesHaveTimers, NamedByDevice, SameStream, LaunchesInOrder, SlotsHoldTheirWorkers;
  }

  lemma OrderStays(launches: map<Worker, Launch>, generation: map<nat, nat>, slots: seq<Slot>, slots': seq<Slot>)
    requires LaunchesInOrder(launches, generation, slots) && |slots| <= |slots'|
    requires forall i :: 0 <= i < |slots| ==> slots'[i] == slots[i] || slots'[i].worker.None?
    ensures LaunchesInOrder(launches, generation, slots')
  {
  }

  lemma NamesStay(launches: map<Worker, Launch>, processes: map<Worker, Process>, processes': map<Worker, Process>)
    requires NamedByDevice(launches, processes) && processes'.Keys == processes.Keys
    requires forall w :: w in processes ==> SameStream(processes[w], processes'[w])
    ensures NamedByDevice(launches, processes')
  {
    hide Uid;
  }

  lemma FreesComposes(a: State, b: State, c: State)
    requires OnlyFrees(a.slots, a.processes, b.slots, b.processes)
    requires OnlyFrees(b.slots, b.processes, c.slots, c.processes)
    ensures OnlyFrees(a.slots, a.processes, c.slots, c.processes)
  {
  }

  /** @p s' is @p s with some workers detached. */
  ghost predicate Frees(s: State, s': State) {
    && s' == s.(slots := s'.slots, processes := s'.processes)
    && OnlyFrees(s.slots, s.processes, s'.slots, s'.processes)
  }

  lemma DetachFrees(s: State, i: nat)
    requires Inv(s) && i < |s.slots|
    ensures Inv(Detach(s, i)) && Frees(s, Detach(s, i))
  {
    var d := Detach(s, i);
    forall k | 0 <= k < |d.slots| && d.slots[k].worker.Some? ensures Holds(d.slots[k], k, d.processes) {
      assert Holds(s.slots[k], k, s.processes);
    }
    FreeingKeepsInv(s, d);
  }

  lemma {:induction false} DetachLiveFrees(s: State, i: nat, n: nat)
    requires Inv(s) && n <= |s.slots|
    ensures Inv(DetachLive(s, i, n)) && Frees(s, DetachLive(s, i, n))
    decreases n - i
  {
    hide Inv, Detach;
    if i < n {
      var d := if Live(s, i) then Detach(s, i) else s;
      NothingFrees(s);
      if Live(s, i) { DetachFrees(s, i); }
      DetachLiveFrees(d, i + 1, n);
      FreesComposes(s, d, DetachLive(s, i, n));
    } else {
      NothingFrees(s);
    }
  }

  lemma NothingFrees(s: State)
    requires Inv(s)
    ensures Frees(s, s)
  {
  }

  lemma {:induction false} TakeOverFrees(s: State, q: StartRequest, i: nat)
    requires Inv(s) && |s.slots| >= TOTAL_SLOTS
    ensures Inv(TakeOver(s, q, i)) && Frees(s, TakeOver(s, q, i))
    decreases OWNER_SLOTS - i
  {
    hide Inv, Detach, Spared;
    if i < OWNER_SLOTS {
      if Spared(s, q, i) {
        TakeOverFrees(s, q, i + 1);
      } else {
        DetachFrees(s, i);
        TakeOverFrees(Detach(s, i), q, i + 1);
        FreesComposes(s, Detach(s, i), TakeOver(s, q, i));
      }
    } else {
      NothingFrees(s);
    }
  }

  lemma {:induction false} QuitSlotsFrees(s: State, q: QuitRequest, i: nat)
    requires Inv(s) && |s.slots| >= TOTAL_SLOTS
    ensures Inv(QuitSlots(s, q, i)) && Frees(s, QuitSlots(s, q, i))
    decreases OWNER_SLOTS - i
  {
    hide Inv, Detach, QuitOwns;
    if i < OWNER_SLOTS {
      var d := if QuitOwns(s, q, i) then Detach(s, i) else s;
      NothingFrees(s);
      if QuitOwns(s, q, i) { DetachFrees(s, i); }
      QuitSlotsFrees(d, q, i + 1);
      FreesComposes(s, d, QuitSlots(s, q, i));
    } else {
      NothingFrees(s);
    }
  }

  lemma ReclaimFrees(s: State, q: StartRequest, slot: nat)
    requires Inv(s) && TOTAL_SLOTS <= |s.slots| && slot < |s.slots|
    ensures Inv(Reclaim(s, q, slot)) && Frees(s, Reclaim(s, q, slot))
  {
    hide Inv, Detach, TakeOver;
    if q.standby {
      DetachFrees(s, slot);
    } else {
      TakeOverFrees(s, q, 0);
      if slot >= OWNER_SLOTS {
        DetachFrees(TakeOver(s, q, 0), slot);
        FreesComposes(s, TakeOver(s, q, 0), Reclaim(s, q, slot));
      }
    }
  }

  // ----- Take-over ------------------------------------------------------------------------------

  /** What a fresh launch of @p q may end: same host, not another device's, not another app's. */
  ghost predicate MayReclaim(s: State, q: StartRequest, i: nat)
    requires i < |s.slots|
  {
    && s.slots[i].host == q.host
    && (q.backend.multiUser ==> s.slots[i].uid == "" || s.slots[i].uid == q.device)
    && (q.backend.concurrentApps ==> s.slots[i].app == 0 || s.slots[i].app == q.app)
  }

  lemma {:induction false} TakeOverSlots(s: State, q: StartRequest, k: nat, i: nat)
    requires |s.slots| >= TOTAL_SLOTS && i < |s.slots|
    ensures TakeOver(s, q, k).slots[i] == if k <= i < OWNER_SLOTS && !Spared(s, q, i) then FREE else s.slots[i]
    decreases OWNER_SLOTS - k
  {
    hide Spared, Detach;
    if k < OWNER_SLOTS {
      var d := if Spared(s, q, k) then s else Detach(s, k);
      TakeOverSlots(d, q, k + 1, i);
      if i != k { SparedIsLocal(s, d, q, i); }
    }
  }

  lemma OthersAfterDetach(s: State, i: nat)
    requires i < |s.slots|
    ensures |Detach(s, i).slots| == |s.slots| && forall k :: 0 <= k < |s.slots| && k != i ==> Detach(s, i).slots[k] == s.slots[k]
  {
  }

  lemma SparedIsLocal(s: State, d: State, q: StartRequest, i: nat)
    requires i < |s.slots| == |d.slots| && d.slots[i] == s.slots[i]
    ensures Spared(s, q, i) == Spared(d, q, i)
  {
  }

  /**
   A fresh launch ends exactly the live owner-pair streams it may reclaim, plus its own chosen slot, and
   that slot too only when it may: never another host's, another device's or another app's. The chosen
   slot always comes out empty.
   */
  lemma FreshLaunchEndsExactlyWhatItMayReclaim(s: State, q: StartRequest)
    requires Inv(s) && !q.standby && ChooseSlot(s, q).0.Some?
    ensures var (choice, c) := ChooseSlot(s, q);
            var slot, r := choice.value, Reclaim(c, q, choice.value);
            && r.slots[slot].worker.None?
            && forall i :: 0 <= i < |s.slots| && Live(s, i) ==>
                 (!Live(r, i) <==> (i < OWNER_SLOTS || i == slot) && MayReclaim(s, q, i))
  {
    var (choice, c) := ChooseSlot(s, q);
    var slot := choice.value;
    ReclaimedSlot(s, q, slot);
    forall i | 0 <= i < |s.slots| && Live(s, i)
      ensures !Live(Reclaim(c, q, slot), i) <==> (i < OWNER_SLOTS || i == slot) && MayReclaim(s, q, i)
    {
      ReclaimedSlot(s, q, i);
      SpareIffNotReclaimable(s, q, i);
    }
  }

  /** The apps of a launch and of a live slot do not stand apart. */
  predicate SameApp(s: State, q: StartRequest, i: nat)
    requires i < |s.slots|
  {
    q.backend.concurrentApps ==> s.slots[i].app == 0 || s.slots[i].app == q.app
  }

  /**
   Whose streams a fresh launch ends, by the id each was launched with. The pool keeps the wire form of an id
   and compares it with the raw id of the new request, so on a multi-user backend a stream is ended by the
   launches whose id is that wire form, and by every launch if nothing of the id was left.
   */
  lemma FreshLaunchEndsByDevice(s: State, q: StartRequest, i: nat)
    requires Inv(s) && !q.standby && ChooseSlot(s, q).0.Some? && i < |s.slots| && Live(s, i)
    requires !s.processes[s.slots[i].worker.value].guest
    ensures var (choice, c) := ChooseSlot(s, q);
            var launcher := s.processes[s.slots[i].worker.value].device;
            !Live(Reclaim(c, q, choice.value), i) <==>
            && (i < OWNER_SLOTS || i == choice.value) && s.slots[i].host == q.host && SameApp(s, q, i)
            && (q.backend.multiUser ==> Uid(launcher) == "" || Uid(launcher) == q.device)
  {
    assert Holds(s.slots[i], i, s.processes);
    hide Uid, ChooseSlot, Reclaim;
    FreshLaunchEndsExactlyWhatItMayReclaim(s, q);
  }

  /** What an id must be for its streams to be its own: hex digits in upper case, one to 32 of them. */
  predicate WireShape(device: string) {
    device != "" && Uid(device) == device
  }

  /**
   On a multi-user backend, in a slot the launch looks at: a stream launched with an id in wire shape is ended
   by exactly the launches with that id. Any other is ended by launches with another id, and by one with its
   own only if nothing is left of it.
   */
  lemma OwnStreamsOnlyIffWireShape(s: State, q: StartRequest, i: nat)
    requires Inv(s) && !q.standby && ChooseSlot(s, q).0.Some? && i < |s.slots| && Live(s, i)
    requires !s.processes[s.slots[i].worker.value].guest
    requires q.backend.multiUser && s.slots[i].host == q.host && SameApp(s, q, i)
    requires i < OWNER_SLOTS || i == ChooseSlot(s, q).0.value
    ensures var (choice, c) := ChooseSlot(s, q);
            var launcher := s.processes[s.slots[i].worker.value].device;
            var ends := !Live(Reclaim(c, q, choice.value), i);
            && (WireShape(launcher) ==> (ends <==> q.device == launcher))
            && (!WireShape(launcher) && q.device == launcher ==> (ends <==> Uid(launcher) == ""))
            && (!WireShape(launcher) && q.device == Uid(launcher) ==> ends && (q.device == launcher ==> launcher == ""))
  {
    FreshLaunchEndsByDevice(s, q, i);
    hide Uid, ChooseSlot, Reclaim;
  }

  lemma {:induction false} HexIsKept(raw: string, acc: string)
    requires (forall c :: c in raw ==> HexDigit(c)) && |acc| + |raw| <= 32
    ensures Sanitize(raw, acc) == acc + raw
    decreases |raw|
  {
    if raw != [] {
      assert raw[0] in raw && forall c :: c in raw[1..] ==> c in raw;
      assert UpperChar(raw[0]) == raw[0];
      if |acc| < 32 { HexIsKept(raw[1..], acc + [raw[0]]); }
      assert acc + [raw[0]] + raw[1..] == acc + raw;
    } else {
      assert acc + raw == acc;
    }
  }

  /** The id a browser keeps: sixteen upper-case hex digits. */
  predicate BrowserId(id: string) {
    |id| == 16 && forall c :: c in id ==> HexDigit(c)
  }

  function Flipped(c: char): char
    requires HexDigit(c)
  {
    if c <= '5' then 'F' - (c - '0') else if c <= '9' then '9' - (c - '6') else '5' - (c - 'A')
  }

  /** The id it sends for a slot: the standby leg's has its last byte inverted. */
  function IdForSlot(id: string, slot: nat): string
    requires BrowserId(id)
  {
    if slot == 0 then id
    else
      assert id[14] in id && id[15] in id;
      id[..14] + [Flipped(id[14]), Flipped(id[15])]
  }

  lemma IdsForSlots(id: string)
    requires BrowserId(id)
    ensures WireShape(IdForSlot(id, 0)) && WireShape(IdForSlot(id, 1)) && IdForSlot(id, 0) != IdForSlot(id, 1)
  {
    var other := IdForSlot(id, 1);
    assert id[14] in id && id[15] in id && forall c :: c in id[..14] ==> c in id;
    assert other[14] == Flipped(id[14]) && other[15] == Flipped(id[15]) && id[14] != Flipped(id[14]);
    HexIsKept(id, "");
    HexIsKept(other, "");
  }

  /**
   One browser, two ids: on a multi-user backend a fresh launch from the one leg spares the browser's own
   stream on the other.
   */
  lemma OwnStandbyIsSpared(s: State, q: StartRequest, i: nat, id: string, leg: nat, launchedFrom: nat)
    requires Inv(s) && !q.standby && ChooseSlot(s, q).0.Some? && i < |s.slots| && Live(s, i)
    requires !s.processes[s.slots[i].worker.value].guest && BrowserId(id) && leg <= 1 && launchedFrom <= 1
    requires s.processes[s.slots[i].worker.value].device == IdForSlot(id, launchedFrom) && q.device == IdForSlot(id, leg)
    requires q.backend.multiUser && s.slots[i].host == q.host && SameApp(s, q, i)
    requires i < OWNER_SLOTS || i == ChooseSlot(s, q).0.value
    ensures var (choice, c) := ChooseSlot(s, q);
            !Live(Reclaim(c, q, choice.value), i) <==> leg == launchedFrom
  {
    IdsForSlots(id);
    hide IdForSlot, WireShape, Uid, ChooseSlot, Reclaim, BrowserId;
    OwnStreamsOnlyIffWireShape(s, q, i);
  }

  /** An id outside the wire shape: "ab" has its stream ended by "AB" and not by itself. */
  lemma LowerCaseIdLosesItsStream(s: State, q: StartRequest, i: nat)
    requires Inv(s) && !q.standby && ChooseSlot(s, q).0.Some? && i < |s.slots| && Live(s, i)
    requires !s.processes[s.slots[i].worker.value].guest && s.processes[s.slots[i].worker.value].device == "ab"
    requires q.backend.multiUser && s.slots[i].host == q.host && SameApp(s, q, i)
    requires i < OWNER_SLOTS || i == ChooseSlot(s, q).0.value
    ensures var (choice, c) := ChooseSlot(s, q);
            var ends := !Live(Reclaim(c, q, choice.value), i);
            (q.device == "AB" ==> ends) && (q.device == "ab" ==> !ends)
  {
    LowerCaseWireForm();
    hide WireShape, Uid, ChooseSlot, Reclaim;
    OwnStreamsOnlyIffWireShape(s, q, i);
  }

  lemma LowerCaseWireForm()
    ensures Uid("ab") == "AB" && !WireShape("ab")
  {
    assert "ab"[1..] == "b" && "b"[1..] == "";
    assert Sanitize("", "AB") == "AB";
    assert "" + ['A'] == "A" && "A" + ['B'] == "AB";
    assert Sanitize("b", "A") == Sanitize("", "AB");
    assert Sanitize("ab", "") == Sanitize("b", "A");
  }

  lemma SpareIffNotReclaimable(s: State, q: StartRequest, i: nat)
    requires Inv(s) && Live(s, i)
    ensures Spared(s, q, i) <==> !MayReclaim(s, q, i)
  {
  }

  /** What the reclaim leaves in one slot, and that the chosen slot is one the request may have. */
  lemma ReclaimedSlot(s: State, q: StartRequest, i: nat)
    requires Inv(s) && !q.standby && ChooseSlot(s, q).0.Some?
    requires i < |ChooseSlot(s, q).1.slots|
    ensures var (choice, c) := ChooseSlot(s, q);
            var slot := choice.value;
            && Reclaim(c, q, slot).slots[i]
               == (if i == slot || (i < OWNER_SLOTS && !Spared(c, q, i)) then FREE else c.slots[i])
            && (Live(s, slot) ==> !Spared(s, q, slot))
            && (i < |s.slots| ==> (Spared(c, q, i) <==> Spared(s, q, i)))
  {
    var (choice, c) := ChooseSlot(s, q);
    var slot := choice.value;
    TakeOverSlots(c, q, 0, i);
    ChosenSlotIsOurs(s, q);
  }

  /** Slot choice and take-over agree: a live chosen slot is one the take-over would not spare. */
  lemma ChosenSlotIsOurs(s: State, q: StartRequest)
    requires TOTAL_SLOTS <= |s.slots| && !q.standby && ChooseSlot(s, q).0.Some?
    ensures var (choice, c) := ChooseSlot(s, q); !Spared(c, q, choice.value) && !Spared(s, q, choice.value)
  {
  }

  /** A standby launch tears down its own slot of the owner pair and nothing else. */
  lemma StandbyTouchesOnlyItsSlot(s: State, q: StartRequest, i: nat)
    requires Inv(s) && q.standby && i < |s.slots|
    ensures var (choice, c) := ChooseSlot(s, q);
            && choice.Some? && choice.value < OWNER_SLOTS && c == s
            && Reclaim(c, q, choice.value).slots[i] == if i == choice.value then FREE else s.slots[i]
  {
  }

  lemma ChosenSlotEmptied(s: State, q: StartRequest)
    requires Inv(s) && ChooseSlot(s, q).0.Some?
    ensures var (choice, c) := ChooseSlot(s, q); Reclaim(c, q, choice.value).slots[choice.value] == FREE
  {
    hide ChooseSlot;
    if !q.standby { ReclaimedSlot(s, q, ChooseSlot(s, q).0.value); }
  }

  lemma PoolGrowthFrees(s: State, q: StartRequest)
    requires Inv(s)
    ensures Inv(ChooseSlot(s, q).1) && Frees(s, ChooseSlot(s, q).1)
  {
    var c := ChooseSlot(s, q).1;
    assert c == s.(slots := c.slots) && s.slots <= c.slots && forall k :: |s.slots| <= k < |c.slots| ==> c.slots[k] == FREE;
    hide ChooseSlot, Uid, EntriesHaveTimers, NamedByDevice, WorkersNumbered;
    assert SlotsHoldTheirWorkers(c.slots, c.processes);
    hide Holds;
    FreeingKeepsInv(s, c);
  }

  // ----- The cap --------------------------------------------------------------------------------

  /** Who streams from a slot, for the cap: a live slot without a device id counts as itself. */
  ghost predicate ViewsFrom(s: State, q: StartRequest, k: nat, v: Viewer)
    requires k < |s.slots|
  {
    && Live(s, k) && s.slots[k].host == q.host
    && v == ViewerOf(q, if s.slots[k].uid == "" then "#" + Decimal(k) else s.slots[k].uid, s.slots[k].app)
  }

  function Asking(q: StartRequest): Viewer {
    ViewerOf(q, if q.device == "" then "#new" else q.device, q.app)
  }

  /** The viewers counted are the one asking and those of the live slots on the host. */
  lemma {:induction false} ViewersAre(s: State, q: StartRequest, i: nat, v: Viewer)
    requires i <= |s.slots|
    ensures v in Viewers(s, q, i) <==> v == Asking(q) || exists k :: i <= k < |s.slots| && ViewsFrom(s, q, k, v)
    decreases |s.slots| - i
  {
    hide Decimal, ViewerOf;
    if i < |s.slots| {
      ViewersAre(s, q, i + 1, v);
      assert v in Viewers(s, q, i) <==> ViewsFrom(s, q, i, v) || v in Viewers(s, q, i + 1);
    }
  }

  /** A launch gets no slot exactly when it would be a viewer too many, or needs an extra slot and none is free. */
  lemma RefusedIff(s: State, q: StartRequest)
    requires TOTAL_SLOTS <= |s.slots|
    ensures ChooseSlot(s, q).0.None? <==>
            && !q.standby
            && (|Viewers(s, q, 0)| > q.backend.cap
                || (Spared(s, q, 0) && Mine(s, q).None? && |s.slots| >= s.maxSlots
                    && forall k :: TOTAL_SLOTS <= k < |s.slots| ==> InUse(s.slots[k])))
  {
    hide Viewers, Spared, Mine;
    NoneToAcquireIff(s, TOTAL_SLOTS);
  }

  lemma {:induction false} NoneToAcquireIff(s: State, i: nat)
    requires i <= |s.slots|
    ensures Acquire(s, i).0.None? <==> |s.slots| >= s.maxSlots && forall k :: i <= k < |s.slots| ==> InUse(s.slots[k])
    decreases |s.slots| - i
  {
    if i < |s.slots| { NoneToAcquireIff(s, i + 1); }
  }

  /** An id that already streams this host, and this app where apps count, adds nothing to the count. */
  lemma ReturningViewerIsNotCountedTwice(s: State, q: StartRequest, k: nat)
    requires k < |s.slots| && Live(s, k) && s.slots[k].host == q.host && q.device != "" && s.slots[k].uid == q.device
    requires q.backend.concurrentApps ==> s.slots[k].app == q.app
    ensures forall v :: v in Viewers(s, q, 0) <==> exists i :: 0 <= i < |s.slots| && ViewsFrom(s, q, i, v)
  {
    assert ViewsFrom(s, q, k, Asking(q));
    hide ViewsFrom, Viewers;
    forall v ensures v in Viewers(s, q, 0) <==> exists i :: 0 <= i < |s.slots| && ViewsFrom(s, q, i, v) {
      ViewersAre(s, q, 0, v);
    }
  }

  /** A browser's standby leg, under its own id, is counted beside the browser's fresh launch. */
  lemma OwnStandbyIsCounted(s: State, q: StartRequest, k: nat, id: string)
    requires k < |s.slots| && Live(s, k) && s.slots[k].host == q.host && BrowserId(id)
    requires q.device == IdForSlot(id, 0) && s.slots[k].uid == IdForSlot(id, 1)
    ensures |Viewers(s, q, 0)| >= 2
  {
    IdsForSlots(id);
    var leg := ViewerOf(q, IdForSlot(id, 1), s.slots[k].app);
    assert q.device != "" && IdForSlot(id, 1) != "";
    assert ViewsFrom(s, q, k, leg) && Asking(q) != leg;
    ViewersAre(s, q, 0, leg);
    ViewersAre(s, q, 0, Asking(q));
    hide Viewers, ViewsFrom, IdForSlot;
    assert {leg, Asking(q)} <= Viewers(s, q, 0);
    AtLeastTwo(Viewers(s, q, 0), leg, Asking(q));
  }

  lemma AtLeastTwo(vs: set<Viewer>, a: Viewer, b: Viewer)
    requires a in vs && b in vs && a != b
    ensures |vs| >= 2
  {
    assert b in vs - {a};
    assert |vs - {a}| == |vs| - 1;
  }

  // ----- Every step keeps the invariant ---------------------------------------------------------

  lemma DropHeldKeeps(s: State, uid: string, host: string)
    requires Inv(s)
    ensures Inv(DropHeld(s, uid, host))
  {
  }

  lemma HoldKeepsEntries(s: State, info: TimerInfo)
    requires EntriesHaveTimers(s.held, s.timers, s.nextTimer)
    ensures EntriesHaveTimers(Hold(s, info).held, Hold(s, info).timers, Hold(s, info).nextTimer)
  {
  }

  lemma EnqueueKeeps(s: State, l: Launch)
    requires Inv(s) && l.slot < |s.slots| && l.host != "" && s.slots[l.slot].worker.None?
    requires l.guest || l.uid == Uid(l.device)
    ensures Inv(Enqueue(s, l))
  {
  }

  lemma ClearedIsReady(s: State, q: StartRequest)
    requires Inv(s) && TOTAL_SLOTS <= |s.slots| && ChooseSlot(s, q).0.Some?
    ensures var slot := ChooseSlot(s, q).0.value;
            Inv(Cleared(s, q)) && slot < |Cleared(s, q).slots| && Cleared(s, q).slots[slot].worker.None?
  {
    hide Inv, ChooseSlot, Reclaim, DropHeld;
    PoolGrowthFrees(s, q);
    var (choice, c) := ChooseSlot(s, q);
    ReclaimFrees(c, q, choice.value);
    ChosenSlotEmptied(s, q);
    DropHeldKeeps(Reclaim(c, q, choice.value), Uid(q.device), q.host);
  }

  lemma LaunchIsNamed(s: State, q: StartRequest)
    requires |s.slots| >= TOTAL_SLOTS && ChooseSlot(s, q).0.Some?
    ensures OwnerLaunch(s, q).uid == Uid(OwnerLaunch(s, q).device)
  {
    hide ChooseSlot, Uid;
  }

  lemma OwnerStartKeeps(s: State, q: StartRequest)
    requires Inv(s) && TOTAL_SLOTS <= |s.slots|
    ensures Inv(OwnerStart(s, q))
  {
    hide Inv, ChooseSlot, Cleared, OwnerLaunch, Enqueue, Uid;
    PoolGrowthFrees(s, q);
    if ChooseSlot(s, q).0.Some? { LaunchIsNamed(s, q); }
    if q.host != "" && ChooseSlot(s, q).0.Some? {
      ClearedIsReady(s, q);
      EnqueueKeeps(Cleared(s, q), OwnerLaunch(s, q));
    }
  }

  /** Every admitted launch leaves its slot empty and is that slot's newest. */
  lemma AdmittedLaunchOwnsAnEmptySlot(s: State, q: StartRequest)
    requires Inv(s) && TOTAL_SLOTS <= |s.slots| && OwnerStart(s, q).nextWorker != s.nextWorker
    ensures var s' := OwnerStart(s, q);
            && s.nextWorker in s'.launches && Newest(s', s'.launches[s.nextWorker])
            && s'.slots[s'.launches[s.nextWorker].slot].worker.None?
            && s'.launches[s.nextWorker].host == q.host
  {
    hide Inv, ChooseSlot, Cleared, OwnerLaunch, Enqueue, Newest;
    ClearedIsReady(s, q);
    EnqueueIsNewest(Cleared(s, q), OwnerLaunch(s, q));
  }

  lemma EnqueueIsNewest(s: State, l: Launch)
    ensures var s' := Enqueue(s, l);
            && s'.slots == s.slots && s.nextWorker in s'.launches && Newest(s', s'.launches[s.nextWorker])
            && s'.launches[s.nextWorker].slot == l.slot && s'.launches[s.nextWorker].host == l.host
  {
  }

  lemma BookkeepingKeeps(s: State, s': State)
    requires Inv(s) && s' == s.(playerUids := s'.playerUids, retiring := s'.retiring, liveUids := s'.liveUids, log := s'.log)
    ensures Inv(s')
  {
  }

  lemma GuestJoinKeeps(s: State, j: JoinRequest)
    requires Inv(s) && OWNER_SLOTS <= j.slot < TOTAL_SLOTS <= |s.slots|
    ensures Inv(GuestJoin(s, j))
  {
    hide Inv, Detach, DropHeld, Enqueue;
    if j.host != "" && j.accepted {
      DetachFrees(s, j.slot);
      var r := Detach(s, j.slot).(retiring := s.retiring - {j.slot});
      BookkeepingKeeps(Detach(s, j.slot), r);
      var uid := if ChainRelaunch(r, j) then r.playerUids[j.slot] else j.freshUid;
      var p := r.(playerUids := r.playerUids[j.slot := uid]);
      BookkeepingKeeps(r, p);
      DropHeldKeeps(p, uid, j.host);
      var d := if ChainRelaunch(r, j) then DropHeld(p, uid, j.host) else p;
      var own := s.slots[j.slot].worker;
      var previous := if own.Some? then own
                      else if j.slot in s.retiring && s.retiring[j.slot] in s.processes then Some(s.retiring[j.slot]) else None;
      EnqueueKeeps(d, Launch(j.slot, 0, true, false, "", uid, j.host, "", j.app, false, FirstStage(previous, false)));
    }
  }

  lemma ForgetKeeps(s: State, w: Worker)
    requires Inv(s)
    ensures Inv(Forget(s, w))
  {
  }

  lemma RestageKeeps(s: State, w: Worker, stage: Stage)
    requires Inv(s) && w in s.launches
    ensures Inv(s.(launches := s.launches[w := s.launches[w].(stage := stage)]))
  {
  }

  lemma RespondedKeeps(s: State, w: Worker, ok: bool)
    requires Inv(s)
    ensures Inv(Responded(s, w, ok))
  {
  }

  lemma WorkerDestroyedKeeps(s: State, w: Worker)
    requires Inv(s)
    ensures Inv(WorkerDestroyed(s, w))
  {
  }

  /** Marking a worker ended disconnects it, so its slot must be cleared in the same step. */
  lemma EndedSlotCleared(s: State, w: Worker)
    requires Inv(s) && w in s.processes && !s.processes[w].ended
    ensures var p := s.processes[w];
            OnlyFrees(s.slots, s.processes, ClearIfHolding(s, p.slot, w).slots,
                      s.processes[w := p.(handled := false, ended := true)])
  {
  }

  lemma WorkerEndedKeeps(s: State, w: Worker, known: bool)
    requires Inv(s)
    ensures Inv(WorkerEnded(s, w, known))
  {
    if w in s.processes && !s.processes[w].ended {
      EndedSlotCleared(s, w);
      if !s.processes[w].handled { UnhandledIsInNoSlot(s, w); }
      EndedSlotsAre(s, w, known);
      EndedEntriesKeep(s, w, known);
      hide SlotsHoldTheirWorkers, LaunchesInOrder, WorkersNumbered, NamedByDevice, EntriesHaveTimers, WorkerEnded, ClearIfHolding;
      FreeingKeepsInv(s, WorkerEnded(s, w, known));
    }
  }

  /** The end of a worker clears its own slot if it still holds it, and changes no other slot. */
  lemma EndedSlotsAre(s: State, w: Worker, known: bool)
    requires Inv(s) && w in s.processes && !s.processes[w].ended
    ensures var s' := WorkerEnded(s, w, known);
            && s'.slots == ClearIfHolding(s, s.processes[w].slot, w).slots
            && s'.processes == s.processes[w := s.processes[w].(handled := false, ended := true)]
            && s'.launches == s.launches && s'.generation == s.generation && s'.nextWorker == s.nextWorker
  {
  }

  lemma EndedEntriesKeep(s: State, w: Worker, known: bool)
    requires EntriesHaveTimers(s.held, s.timers, s.nextTimer)
    ensures EntriesHaveTimers(WorkerEnded(s, w, known).held, WorkerEnded(s, w, known).timers, WorkerEnded(s, w, known).nextTimer)
  {
    hide Hold, AnyOtherLive, EntriesHaveTimers;
    if w in s.processes {
      var p := s.processes[w];
      var e := s.(processes := s.processes[w := p.(handled := false, ended := true)]);
      HoldKeepsEntries(e, TimerInfo(p.uid, p.host, p.slot, p.guest));
    }
  }

  lemma UnhandledIsInNoSlot(s: State, w: Worker)
    requires Inv(s) && w in s.processes && !s.processes[w].handled
    ensures forall i :: 0 <= i < |s.slots| ==> s.slots[i].worker != Some(w)
  {
  }

  lemma TimerFiredKeeps(s: State, t: Timer, known: bool)
    requires Inv(s)
    ensures Inv(TimerFired(s, t, known))
  {
  }

  lemma QuitKeeps(s: State, q: QuitRequest)
    requires Inv(s) && TOTAL_SLOTS <= |s.slots|
    ensures Inv(Quit(s, q))
  {
    hide Inv, QuitSlots, DetachLive, DropHeld;
    DetachLiveFrees(s, OWNER_SLOTS, TOTAL_SLOTS);
    var e := if q.keep then s else EndPlayers(s);
    QuitSlotsFrees(e, q, 0);
    DropHeldKeeps(QuitSlots(e, q, 0), q.uid, q.host);
    if !q.keep { BookkeepingKeeps(DropHeld(QuitSlots(e, q, 0), q.uid, q.host), Quit(s, q)); }
  }

  lemma StopSessionKeeps(s: State, host: string, order: seq<string>)
    requires Inv(s) && TOTAL_SLOTS <= |s.slots|
    ensures Inv(StopSession(s, host, order))
  {
    hide Inv, Detach, DetachLive;
    DetachLiveFrees(s, OWNER_SLOTS, TOTAL_SLOTS);
    var e := EndPlayers(s);
    DetachFrees(e, 0);
    DetachFrees(Detach(e, 0), 1);
    BookkeepingKeeps(Detach(Detach(e, 0), 1), StopSession(s, host, order));
  }

  lemma {:induction false} DetachLiveEmpties(s: State, i: nat, n: nat, k: nat)
    requires n <= |s.slots| && k < |s.slots|
    ensures DetachLive(s, i, n).slots[k] == if i <= k < n && Live(s, k) then FREE else s.slots[k]
    decreases n - i
  {
    hide Detach;
    if i < n {
      DetachLiveEmpties(if Live(s, i) then Detach(s, i) else s, i + 1, n, k);
    }
  }

  /** Stopping the session empties every reserved slot and touches none above. */
  lemma StopSessionEmptiesReserved(s: State, host: string, order: seq<string>, k: nat)
    requires TOTAL_SLOTS <= |s.slots| && k < |s.slots|
    ensures var r := StopSession(s, host, order);
            if k < TOTAL_SLOTS then !Live(r, k) else r.slots[k] == s.slots[k]
  {
    hide DetachLive;
    DetachLiveEmpties(s, OWNER_SLOTS, TOTAL_SLOTS, k);
  }

  /** A quit ends the owner slots it owns, and every player unless the host session is kept. */
  lemma QuitEndsExactly(s: State, q: QuitRequest, k: nat)
    requires TOTAL_SLOTS <= |s.slots| && k < |s.slots|
    ensures var sl := s.slots[k];
            var owned := && k < OWNER_SLOTS && (q.slot == None || q.slot == Some(k))
                         && (sl.uid == q.uid || sl.uid == "" || q.uid == "")
                         && (sl.token == q.token || sl.token == "" || q.token == "");
            var player := OWNER_SLOTS <= k < TOTAL_SLOTS && !q.keep;
            Quit(s, q).slots[k] == if sl.worker.Some? && (owned || player) then FREE else sl
  {
    QuitOwnsAre(s, q, k);
    hide DetachLive, QuitSlots, DropHeld, QuitOwns;
    DetachLiveEmpties(s, OWNER_SLOTS, TOTAL_SLOTS, k);
    var e := if q.keep then s else EndPlayers(s);
    QuitSlotsEmpty(e, q, 0, k);
    QuitOwnsIsLocal(s, e, q, k);
  }

  lemma QuitOwnsAre(s: State, q: QuitRequest, k: nat)
    requires k < |s.slots|
    ensures QuitOwns(s, q, k) <==>
            && s.slots[k].worker.Some? && (q.slot == None || q.slot == Some(k))
            && (s.slots[k].uid == q.uid || s.slots[k].uid == "" || q.uid == "")
            && (s.slots[k].token == q.token || s.slots[k].token == "" || q.token == "")
  {
  }

  lemma QuitOwnsIsLocal(s: State, e: State, q: QuitRequest, k: nat)
    requires k < |s.slots| == |e.slots| && (k < OWNER_SLOTS ==> e.slots[k] == s.slots[k])
    ensures k < OWNER_SLOTS ==> QuitOwns(e, q, k) == QuitOwns(s, q, k)
  {
  }

  lemma {:induction false} QuitSlotsEmpty(s: State, q: QuitRequest, i: nat, k: nat)
    requires TOTAL_SLOTS <= |s.slots| && k < |s.slots|
    ensures QuitSlots(s, q, i).slots[k] == if i <= k < OWNER_SLOTS && QuitOwns(s, q, k) then FREE else s.slots[k]
    decreases OWNER_SLOTS - i
  {
    if i < OWNER_SLOTS {
      QuitSlotsEmpty(if QuitOwns(s, q, i) then Detach(s, i) else s, q, i + 1, k);
    }
  }

  lemma StopPlayerKeeps(s: State, slot: nat, known: bool)
    requires Inv(s) && OWNER_SLOTS <= slot < TOTAL_SLOTS <= |s.slots|
    ensures Inv(StopPlayer(s, slot, known))
  {
    hide Detach, Hold, AnyOtherLive, SlotsHoldTheirWorkers, LaunchesInOrder, WorkersNumbered, NamedByDevice, EntriesHaveTimers;
    DetachFrees(s, slot);
    if Live(s, slot) {
      var d := Detach(s, slot).(retiring := s.retiring[slot := s.slots[slot].worker.value]);
      HoldKeepsEntries(d, TimerInfo(if slot in d.playerUids then d.playerUids[slot] else "", s.slots[slot].host, slot, true));
    }
  }

  lemma RestagesKeep(s: State, w: Worker, ok: bool)
    requires Inv(s)
    ensures Inv(PreviousGone(s, w)) && Inv(DisplayAnswer(s, w, ok))
  {
    hide Inv;
    ForgetKeeps(s, w);
    if w in s.launches {
      RestageKeeps(s, w, AwaitRouter);
      RestageKeeps(s, w, AwaitDisplay);
    }
  }

  lemma RouterAnswerKeeps(s: State, w: Worker, spawned: bool)
    requires Inv(s)
    ensures Inv(RouterAnswer(s, w, spawned))
  {
  }

  lemma StepKeepsInv(s: State, e: Event)
    requires Inv(s) && Possible(s, e)
    ensures Inv(Step(s, e))
  {
    hide Inv, OwnerStart, GuestJoin, PreviousGone, DisplayAnswer, RouterAnswer, Responded, WorkerEnded, WorkerDestroyed,
         TimerFired, Quit, StopSession, StopPlayer, Detach;
    match e
    case EStart(q) => OwnerStartKeeps(s, q);
    case EJoin(j) => GuestJoinKeeps(s, j);
    case EPreviousGone(w) => RestagesKeep(s, w, true);
    case EDisplay(w, ok) => RestagesKeep(s, w, ok);
    case ERouter(w, spawned) => RouterAnswerKeeps(s, w, spawned);
    case EResponded(w, ok) => RespondedKeeps(s, w, ok);
    case EEnded(w, known) => WorkerEndedKeeps(s, w, known);
    case EDestroyed(w) => WorkerDestroyedKeeps(s, w);
    case ETimer(t, known) => TimerFiredKeeps(s, t, known);
    case EQuit(q) => QuitKeeps(s, q);
    case EStopSession(host, order) => StopSessionKeeps(s, host, order);
    case EStopPlayer(slot, known) => StopPlayerKeeps(s, slot, known);
    case EMustDisconnect(slot) => DetachFrees(s, slot);
  }

  // ----- How a worker enters and leaves a slot --------------------------------------------------

  /** No slot gains a worker, and one that keeps its own changes nothing. */
  ghost predicate OnlyLoses(slots: seq<Slot>, slots': seq<Slot>) {
    && |slots| <= |slots'|
    && (forall i :: 0 <= i < |slots| ==> slots'[i] == slots[i] || slots'[i].worker.None?)
    && (forall i :: |slots| <= i < |slots'| ==> slots'[i].worker.None?)
  }

  lemma StartsOnlyLose(s: State, q: StartRequest)
    requires Inv(s) && TOTAL_SLOTS <= |s.slots|
    ensures OnlyLoses(s.slots, OwnerStart(s, q).slots)
  {
    hide Inv, ChooseSlot, Reclaim, SlotsHoldTheirWorkers, Uid, OwnerLaunch;
    PoolGrowthFrees(s, q);
    var (choice, c) := ChooseSlot(s, q);
    if choice.Some? { ReclaimFrees(c, q, choice.value); }
  }

  lemma StopsOnlyLose(s: State, q: QuitRequest, host: string, order: seq<string>)
    requires Inv(s) && TOTAL_SLOTS <= |s.slots|
    ensures OnlyLoses(s.slots, Quit(s, q).slots) && OnlyLoses(s.slots, StopSession(s, host, order).slots)
  {
    hide Inv, QuitSlots, DetachLive, SlotsHoldTheirWorkers;
    DetachLiveFrees(s, OWNER_SLOTS, TOTAL_SLOTS);
    QuitSlotsFrees(if q.keep then s else EndPlayers(s), q, 0);
  }

  lemma OtherStepsOnlyLose(s: State, e: Event)
    requires Inv(s) && Possible(s, e) && !e.EStart? && !e.EQuit? && !e.EStopSession? && !e.ERouter?
    ensures OnlyLoses(s.slots, Step(s, e).slots)
  {
    hide Inv, GuestJoin, PreviousGone, DisplayAnswer, Responded, WorkerEnded, WorkerDestroyed, TimerFired, StopPlayer;
  }

  lemma StepOnlyLoses(s: State, e: Event)
    requires Inv(s) && Possible(s, e) && !e.ERouter?
    ensures OnlyLoses(s.slots, Step(s, e).slots)
  {
    hide Inv, OwnerStart, Quit, StopSession, OnlyLoses;
    match e
    case EStart(q) => StartsOnlyLose(s, q);
    case EQuit(q) => StopsOnlyLose(s, q, "", []);
    case EStopSession(host, order) => StopsOnlyLose(s, QuitRequest("", "", None, "", true), host, order);
    case _ => OtherStepsOnlyLose(s, e);
  }

  /**
   A worker enters a slot only when the router answered its own launch, the slot was empty, and every
   other launch still queued for that slot is older.
   */
  lemma WorkerEntersEmptySlotAsNewest(s: State, e: Event, i: nat)
    requires Inv(s) && Possible(s, e)
    requires i < |Step(s, e).slots| && Step(s, e).slots[i].worker.Some?
    requires i < |s.slots| ==> Step(s, e).slots[i].worker != s.slots[i].worker
    ensures var w := Step(s, e).slots[i].worker.value;
            && e == ERouter(w, true) && i < |s.slots| && s.slots[i].worker.None?
            && w in s.launches && s.launches[w].slot == i && s.launches[w].gen == Generation(s, i)
            && (forall v :: v in s.launches && v != w && s.launches[v].slot == i ==> s.launches[v].gen < s.launches[w].gen)
  {
    if e.ERouter? {
      var w := e.w;
      assert w in s.launches && Newest(s, s.launches[w]) && s.launches[w].slot == i;
    } else {
      StepOnlyLoses(s, e);
    }
  }

  /** The end of a worker empties the slot that still holds that very worker, and touches no other. */
  lemma EndClearsItsOwnSlotOnly(s: State, w: Worker, known: bool, i: nat)
    requires Inv(s) && i < |s.slots|
    ensures var s' := WorkerEnded(s, w, known);
            |s'.slots| == |s.slots| && s'.slots[i] == if s.slots[i].worker == Some(w) then FREE else s.slots[i]
  {
    if s.slots[i].worker == Some(w) {
      assert Holds(s.slots[i], i, s.processes);
    }
  }

  // ----- Whole runs -----------------------------------------------------------------------------

  ghost predicate Run(trace: seq<State>, es: seq<Event>) {
    && |trace| == |es| + 1
    && (exists max: nat :: trace[0] == Initial(max))
    && forall k :: 0 <= k < |es| ==> StepAt(trace, es, k)
  }

  ghost predicate StepAt(trace: seq<State>, es: seq<Event>, k: nat)
    requires k < |es| && |trace| == |es| + 1
  {
    Possible(trace[k], es[k]) && trace[k + 1] == Step(trace[k], es[k])
  }

  lemma {:induction false} RunKeepsInv(trace: seq<State>, es: seq<Event>, k: nat)
    requires Run(trace, es) && k < |trace|
    ensures Inv(trace[k])
  {
    hide Inv, Step, Initial, Possible;
    if k > 0 {
      RunKeepsInv(trace, es, k - 1);
      assert StepAt(trace, es, k - 1);
      StepKeepsInv(trace[k - 1], es[k - 1]);
    } else {
      var max: nat :| trace[0] == Initial(max);
      InitialInv(max);
    }
  }

  lemma RunsStep(trace: seq<State>, es: seq<Event>, k: nat)
    requires Run(trace, es) && k < |es|
    ensures Inv(trace[k]) && Possible(trace[k], es[k]) && trace[k + 1] == Step(trace[k], es[k])
  {
    hide Inv, Step, Possible;
    RunKeepsInv(trace, es, k);
    assert StepAt(trace, es, k);
  }

  lemma InitialInv(max: nat)
    ensures Inv(Initial(max))
  {
  }

  /** Over any run: slots are filled one at a time, from empty, each time by the slot's newest launch. */
  lemma SlotSafety(trace: seq<State>, es: seq<Event>, k: nat, i: nat)
    requires Run(trace, es) && k < |es| && i < |trace[k + 1].slots|
    requires trace[k + 1].slots[i].worker.Some?
    requires i < |trace[k].slots| ==> trace[k + 1].slots[i].worker != trace[k].slots[i].worker
    ensures var w := trace[k + 1].slots[i].worker.value;
            && i < |trace[k].slots| && trace[k].slots[i].worker.None?
            && w in trace[k].launches && trace[k].launches[w].slot == i
            && trace[k].launches[w].gen == Generation(trace[k], i)
  {
    RunKeepsInv(trace, es, k);
    assert StepAt(trace, es, k);
    hide Inv, Step;
    WorkerEntersEmptySlotAsNewest(trace[k], es[k], i);
  }

  // ----- After a stop ---------------------------------------------------------------------------

  /** No launch enters the queue. */
  ghost predicate NoLaunches(es: seq<Event>) {
    forall e :: e in es ==> !e.EStart? && !e.EJoin?
  }

  /** Launches only leave the queue or move on in it. */
  ghost predicate QueueThins(s: State, s': State) {
    && s'.generation == s.generation
    && forall w :: w in s'.launches ==> w in s.launches && s'.launches[w] == s.launches[w].(stage := s'.launches[w].stage)
  }

  lemma SameQueueThins(s: State, s': State)
    requires s'.generation == s.generation && s'.launches == s.launches
    ensures QueueThins(s, s')
  {
  }

  lemma ForgetThins(s: State, s': State, w: Worker)
    requires s'.generation == s.generation && s'.launches == s.launches - {w}
    ensures QueueThins(s, s')
  {
  }

  lemma RestageThins(s: State, s': State, w: Worker, stage: Stage)
    requires w in s.launches && s'.generation == s.generation
    requires s'.launches == s.launches[w := s.launches[w].(stage := stage)]
    ensures QueueThins(s, s')
  {
  }

  lemma PreviousThins(s: State, w: Worker)
    ensures QueueThins(s, PreviousGone(s, w))
  {
    hide QueueThins;
    SameQueueThins(s, s);
    if w in s.launches {
      RestageThins(s, s.(launches := s.launches[w := s.launches[w].(stage := AwaitDisplay)]), w, AwaitDisplay);
      RestageThins(s, s.(launches := s.launches[w := s.launches[w].(stage := AwaitRouter)]), w, AwaitRouter);
    }
  }

  lemma DisplayThins(s: State, w: Worker, ok: bool)
    ensures QueueThins(s, DisplayAnswer(s, w, ok))
  {
    hide QueueThins;
    SameQueueThins(s, s);
    ForgetThins(s, Forget(s, w), w);
    if w in s.launches {
      RestageThins(s, s.(launches := s.launches[w := s.launches[w].(stage := AwaitRouter)]), w, AwaitRouter);
    }
  }

  lemma RouterThins(s: State, w: Worker, spawned: bool)
    ensures QueueThins(s, RouterAnswer(s, w, spawned))
  {
    var r := RouterAnswer(s, w, spawned);
    assert r.launches == s.launches || r.launches == s.launches - {w};
    if r.launches == s.launches { SameQueueThins(s, r); } else { ForgetThins(s, r, w); }
    hide QueueThins, RouterAnswer;
  }

  /** Neither /quit nor /stop-session touches a launch that is still waiting for its answers. */
  lemma StopsKeepTheQueue(s: State, q: QuitRequest, host: string, order: seq<string>)
    requires TOTAL_SLOTS <= |s.slots|
    ensures Quit(s, q).launches == s.launches && Quit(s, q).generation == s.generation
    ensures StopSession(s, host, order).launches == s.launches && StopSession(s, host, order).generation == s.generation
  {
    hide QuitSlots, DetachLive, DropHeld;
  }

  lemma EndKeepsTheQueue(s: State, w: Worker, known: bool)
    ensures WorkerEnded(s, w, known).launches == s.launches && WorkerEnded(s, w, known).generation == s.generation
  {
    hide EndedHandler;
  }

  lemma StopPlayerKeepsTheQueue(s: State, slot: nat, known: bool)
    requires OWNER_SLOTS <= slot < TOTAL_SLOTS <= |s.slots|
    ensures StopPlayer(s, slot, known).launches == s.launches && StopPlayer(s, slot, known).generation == s.generation
  {
    hide Detach, GuestCancelSoon;
  }

  lemma StepThins(s: State, e: Event)
    requires Possible(s, e) && !e.EStart? && !e.EJoin?
    ensures QueueThins(s, Step(s, e))
  {
    hide PreviousGone, DisplayAnswer, RouterAnswer, Responded, WorkerEnded, WorkerDestroyed, TimerFired, Quit, StopSession,
         StopPlayer, PlayerMustDisconnect, QueueThins;
    match e
    case EPreviousGone(w) => PreviousThins(s, w);
    case EDisplay(w, ok) => DisplayThins(s, w, ok);
    case ERouter(w, spawned) => RouterThins(s, w, spawned);
    case EEnded(w, known) => EndKeepsTheQueue(s, w, known); SameQueueThins(s, Step(s, e));
    case EStopPlayer(slot, known) => StopPlayerKeepsTheQueue(s, slot, known); SameQueueThins(s, Step(s, e));
    case EQuit(q) => StopsKeepTheQueue(s, q, "", []); SameQueueThins(s, Step(s, e));
    case EStopSession(host, order) => StopsKeepTheQueue(s, QuitRequest("", "", None, "", true), host, order); SameQueueThins(s, Step(s, e));
    case EResponded(_, _) => SameQueueThins(s, Step(s, e));
    case EDestroyed(_) => SameQueueThins(s, Step(s, e));
    case ETimer(_, _) => SameQueueThins(s, Step(s, e));
    case EMustDisconnect(_) => SameQueueThins(s, Step(s, e));
  }

  /** The state after some events, as far as they are possible. */
  function After(s: State, es: seq<Event>): State
    decreases |es|
  {
    if es == [] || !Possible(s, es[0]) then s else After(Step(s, es[0]), es[1..])
  }

  /** A launch that may still spawn: queued for @p i, and the newest there. */
  ghost predicate MaySpawn(s: State, w: Worker, i: nat) {
    w in s.launches && s.launches[w].slot == i && s.launches[w].gen == Generation(s, i)
  }

  /** With no launch left that may spawn there, an empty slot stays empty until the next start or join. */
  lemma {:induction false} StaysEmpty(s: State, es: seq<Event>, i: nat)
    requires Inv(s) && NoLaunches(es) && i < |s.slots| && s.slots[i].worker.None?
    requires forall w :: !MaySpawn(s, w, i)
    ensures Inv(After(s, es)) && i < |After(s, es).slots| && After(s, es).slots[i].worker.None?
    decreases |es|
  {
    hide Inv, Step, Possible, MaySpawn;
    if es != [] && Possible(s, es[0]) {
      assert es[0] in es && forall e :: e in es[1..] ==> e in es;
      StepKeepsInv(s, es[0]);
      StepStaysEmpty(s, es[0], i);
      StaysEmpty(Step(s, es[0]), es[1..], i);
    }
  }

  lemma StepStaysEmpty(s: State, e: Event, i: nat)
    requires Inv(s) && Possible(s, e) && !e.EStart? && !e.EJoin? && i < |s.slots| && s.slots[i].worker.None?
    requires forall w :: !MaySpawn(s, w, i)
    ensures i < |Step(s, e).slots| && Step(s, e).slots[i].worker.None? && forall w :: !MaySpawn(Step(s, e), w, i)
  {
    hide Inv, Step, Possible;
    StepThins(s, e);
    SlotsNeverGo(s, e);
    forall w | MaySpawn(Step(s, e), w, i) ensures MaySpawn(s, w, i) {
      MaySpawnThins(s, Step(s, e), w, i);
    }
    FillerMaySpawn(s, e, i);
  }

  lemma FillerMaySpawn(s: State, e: Event, i: nat)
    requires Inv(s) && Possible(s, e) && i < |s.slots| && s.slots[i].worker.None? && i < |Step(s, e).slots|
    ensures Step(s, e).slots[i].worker.Some? ==> MaySpawn(s, Step(s, e).slots[i].worker.value, i)
  {
    hide Inv, Step, Possible;
    if Step(s, e).slots[i].worker.Some? {
      WorkerEntersEmptySlotAsNewest(s, e, i);
    }
  }

  lemma MaySpawnThins(s: State, s': State, w: Worker, i: nat)
    requires QueueThins(s, s') && MaySpawn(s', w, i)
    ensures MaySpawn(s, w, i)
  {
  }

  lemma SlotsNeverGo(s: State, e: Event)
    requires Inv(s) && Possible(s, e)
    ensures |s.slots| <= |Step(s, e).slots|
  {
    if !e.ERouter? {
      hide Inv, Step;
      StepOnlyLoses(s, e);
    }
  }

  /** Whatever a queued launch waits for, and its answer. */
  function Answers(s: State, w: Worker): seq<Event>
    requires w in s.launches
  {
    var l := s.launches[w];
    (if l.stage.AwaitPrevious? then [EEnded(l.stage.previous, false), EDestroyed(l.stage.previous), EPreviousGone(w)] else [])
    + (if l.stage.AwaitDisplay? || (l.stage.AwaitPrevious? && l.display) then [EDisplay(w, true)] else [])
    + [ERouter(w, true)]
  }

  lemma AfterOne(s: State, e: Event, es: seq<Event>)
    requires Possible(s, e)
    ensures After(s, [e] + es) == After(Step(s, e), es)
  {
    assert ([e] + es)[1..] == es;
    hide Step, Possible;
  }

  /** The newest launch at the router spawns when the router answers. */
  lemma SpawnsFromRouter(s: State, w: Worker, i: nat)
    requires Inv(s) && MaySpawn(s, w, i) && s.launches[w].stage == AwaitRouter
    ensures var t := After(s, [ERouter(w, true)]); i < |t.slots| && t.slots[i].worker == Some(w)
  {
    assert [ERouter(w, true)][1..] == [];
  }

  lemma SpawnsFromDisplay(s: State, w: Worker, i: nat)
    requires Inv(s) && MaySpawn(s, w, i) && s.launches[w].stage == AwaitDisplay
    ensures var t := After(s, [EDisplay(w, true), ERouter(w, true)]); i < |t.slots| && t.slots[i].worker == Some(w)
  {
    var e := EDisplay(w, true);
    assert [e, ERouter(w, true)] == [e] + [ERouter(w, true)];
    AfterOne(s, e, [ERouter(w, true)]);
    StepKeepsInv(s, e);
    hide Inv, After;
    SpawnsFromRouter(Step(s, e), w, i);
  }

  /** The previous worker ends and goes, and the deferred start runs. */
  lemma PreviousGoes(s: State, w: Worker, i: nat)
    requires Inv(s) && MaySpawn(s, w, i) && s.launches[w].stage.AwaitPrevious?
    ensures var p := s.launches[w].stage.previous;
            var t := WorkerDestroyed(WorkerEnded(s, p, false), p);
            && Inv(t) && p !in t.processes && t.launches == s.launches && t.generation == s.generation
  {
    var p := s.launches[w].stage.previous;
    WorkerEndedKeeps(s, p, false);
    WorkerDestroyedKeeps(WorkerEnded(s, p, false), p);
    EndKeepsTheQueue(s, p, false);
    PreviousEnds(s, p);
    hide Inv, WorkerEnded;
  }

  lemma PreviousEnds(s: State, p: Worker)
    ensures var e := WorkerEnded(s, p, false); p in e.processes ==> e.processes[p].ended
  {
    hide EndedHandler;
  }

  /** The previous worker's end, its going, and the deferred start. */
  function AfterPrevious(s: State, w: Worker, p: Worker): State {
    PreviousGone(WorkerDestroyed(WorkerEnded(s, p, false), p), w)
  }

  lemma AfterThree(s: State, e: Event, f: Event, g: Event, es: seq<Event>)
    requires Possible(s, e) && Possible(Step(s, e), f) && Possible(Step(Step(s, e), f), g)
    ensures After(s, [e, f, g] + es) == After(Step(Step(Step(s, e), f), g), es)
  {
    hide Step, Possible;
    var rest := [g] + es;
    assert [e, f, g] + es == [e] + ([f] + rest);
    AfterOne(s, e, [f] + rest);
    AfterOne(Step(s, e), f, rest);
    AfterOne(Step(Step(s, e), f), g, es);
  }

  lemma AfterPreviousIs(s: State, w: Worker, p: Worker, es: seq<Event>)
    requires TOTAL_SLOTS <= |s.slots|
    ensures After(s, [EEnded(p, false), EDestroyed(p), EPreviousGone(w)] + es) == After(AfterPrevious(s, w, p), es)
  {
    hide After, WorkerEnded, WorkerDestroyed, PreviousGone;
    AfterThree(s, EEnded(p, false), EDestroyed(p), EPreviousGone(w), es);
  }

  lemma PreviousMovesOn(s: State, w: Worker, i: nat)
    requires Inv(s) && MaySpawn(s, w, i) && s.launches[w].stage.AwaitPrevious?
    ensures var c := AfterPrevious(s, w, s.launches[w].stage.previous);
            Inv(c) && MaySpawn(c, w, i) && c.launches[w].stage == if s.launches[w].display then AwaitDisplay else AwaitRouter
  {
    var p := s.launches[w].stage.previous;
    PreviousGoes(s, w, i);
    RestagesKeep(WorkerDestroyed(WorkerEnded(s, p, false), p), w, true);
    hide Inv, WorkerEnded, WorkerDestroyed;
  }

  lemma SpawnsFromPrevious(s: State, w: Worker, i: nat)
    requires Inv(s) && MaySpawn(s, w, i) && s.launches[w].stage.AwaitPrevious?
    ensures var t := After(s, Answers(s, w)); i < |t.slots| && t.slots[i].worker == Some(w)
  {
    var l := s.launches[w];
    var rest := if l.display then [EDisplay(w, true), ERouter(w, true)] else [ERouter(w, true)];
    AnswersToPrevious(s, w);
    assert TOTAL_SLOTS <= |s.slots|;
    hide Inv, After, AfterPrevious, Answers;
    AfterPreviousIs(s, w, l.stage.previous, rest);
    PreviousMovesOn(s, w, i);
    var c := AfterPrevious(s, w, l.stage.previous);
    hide MaySpawn;
    if l.display { SpawnsFromDisplay(c, w, i); } else { SpawnsFromRouter(c, w, i); }
  }

  lemma AnswersToPrevious(s: State, w: Worker)
    requires w in s.launches && s.launches[w].stage.AwaitPrevious?
    ensures var l := s.launches[w];
            Answers(s, w) == [EEnded(l.stage.previous, false), EDestroyed(l.stage.previous), EPreviousGone(w)]
                             + if l.display then [EDisplay(w, true), ERouter(w, true)] else [ERouter(w, true)]
  {
  }

  lemma AnswersNoLaunch(s: State, w: Worker)
    requires w in s.launches
    ensures NoLaunches(Answers(s, w))
    ensures s.launches[w].stage.AwaitDisplay? ==> Answers(s, w) == [EDisplay(w, true), ERouter(w, true)]
    ensures s.launches[w].stage.AwaitRouter? ==> Answers(s, w) == [ERouter(w, true)]
  {
  }

  lemma SpawnsOnceAnswered(s: State, w: Worker, i: nat)
    requires Inv(s) && MaySpawn(s, w, i)
    ensures var t := After(s, Answers(s, w)); NoLaunches(Answers(s, w)) && i < |t.slots| && t.slots[i].worker == Some(w)
  {
    AnswersNoLaunch(s, w);
    hide Inv, After, Answers, NoLaunches;
    if s.launches[w].stage.AwaitPrevious? {
      SpawnsFromPrevious(s, w, i);
    } else if s.launches[w].stage.AwaitDisplay? {
      SpawnsFromDisplay(s, w, i);
    } else {
      SpawnsFromRouter(s, w, i);
    }
  }

  /**
   An empty slot is filled by some continuation without a start or join exactly when its newest launch is
   still queued.
   */
  lemma RefillsIff(s: State, i: nat)
    requires Inv(s) && i < |s.slots| && s.slots[i].worker.None?
    ensures (exists es :: NoLaunches(es) && i < |After(s, es).slots| && After(s, es).slots[i].worker.Some?)
       <==> exists w :: MaySpawn(s, w, i)
  {
    hide Inv, After, MaySpawn, Answers;
    if w :| MaySpawn(s, w, i) {
      SpawnsOnceAnsweredSome(s, w, i);
    } else {
      forall es | NoLaunches(es) ensures i < |After(s, es).slots| && After(s, es).slots[i].worker.None? {
        StaysEmpty(s, es, i);
      }
    }
  }

  lemma SpawnsOnceAnsweredSome(s: State, w: Worker, i: nat)
    requires Inv(s) && MaySpawn(s, w, i)
    ensures exists es :: NoLaunches(es) && i < |After(s, es).slots| && After(s, es).slots[i].worker.Some?
  {
    SpawnsOnceAnswered(s, w, i);
    hide Inv, After, MaySpawn;
    assert NoLaunches(Answers(s, w));
  }

  /**
   /stop-session does not call off the launches it overlaps: a reserved slot it emptied can fill again with
   no further start or join exactly when the slot's newest launch was queued when the stop came.
   */
  lemma RefillsAfterStopIff(s: State, host: string, order: seq<string>, i: nat)
    requires Inv(s) && i < TOTAL_SLOTS <= |s.slots|
    ensures var t := StopSession(s, host, order);
            (exists es :: NoLaunches(es) && i < |After(t, es).slots| && After(t, es).slots[i].worker.Some?)
            <==> exists w :: MaySpawn(s, w, i)
  {
    var t := StopSession(s, host, order);
    StopSessionKeeps(s, host, order);
    StopsKeepTheQueue(s, QuitRequest("", "", None, "", true), host, order);
    StopSessionEmptiesReserved(s, host, order, i);
    assert forall w :: MaySpawn(t, w, i) <==> MaySpawn(s, w, i);
    hide Inv, StopSession, After, MaySpawn;
    RefillsIff(t, i);
  }
}
