/**
 The stream-slot machine of backend/src/main.cpp and the pool of backend/src/server/SessionPool.cpp,
 as values: the state every handler and callback shares, and one function per atomic step.
 SlotServer holds the handlers themselves and is verified against these functions.
 */
module SlotState {
  import opened Base
  import opened Text

  /** The identity of one StreamWorkerHost object. */
  type Worker = nat
  type Timer = nat

  const OWNER_SLOTS: nat := 2
  const TOTAL_SLOTS: nat := 5

  datatype Slot = Slot(worker: Option<Worker>, uid: string, host: string, token: string, app: int)

  const FREE := Slot(None, "", "", "", 0)

  /** What a launch is waiting for before its worker may be spawned. */
  datatype Stage = AwaitPrevious(previous: Worker) | AwaitDisplay | AwaitRouter

  /** @p device, here and below: the id the launching browser sent. Nothing reads it but the statements. */
  datatype Launch = Launch(slot: nat, gen: nat, guest: bool, standby: bool, device: string, uid: string, host: string, token: string,
                           app: int, display: bool, stage: Stage)

  /** A spawned worker. @p handled: its ended handler is still connected. */
  datatype Process = Process(slot: nat, guest: bool, standby: bool, device: string, uid: string, host: string, handled: bool, ended: bool)

  /** A held /cancel's timer, with everything its callback captured. */
  datatype TimerInfo = TimerInfo(uid: string, host: string, slot: nat, guest: bool)
  datatype Held = Held(timer: Timer, host: string)

  datatype Output =
    | HeldCancel(timer: Timer, info: TimerInfo)
    | Cancel(uid: string, host: string)

  datatype State = State(
    slots: seq<Slot>,
    maxSlots: nat,
    generation: map<nat, nat>,
    launches: map<Worker, Launch>,
    processes: map<Worker, Process>,
    held: map<string, Held>,
    timers: map<Timer, TimerInfo>,
    liveUids: set<string>,
    playerUids: map<nat, string>,
    retiring: map<nat, Worker>,
    nextWorker: Worker,
    nextTimer: Timer,
    log: seq<Output>)

  /** The pool starts with its reserved slots; the ceiling is never below them. */
  function Initial(maxSlots: nat): State {
    State(seq(TOTAL_SLOTS, _ => FREE), if maxSlots < TOTAL_SLOTS then TOTAL_SLOTS else maxSlots, map[], map[], map[],
          map[], map[], {}, map[], map[], 0, 0, [])
  }

  // ----- The pool -------------------------------------------------------------------------------

  predicate Live(s: State, i: int) {
    0 <= i < |s.slots| && s.slots[i].worker.Some?
  }

  predicate LiveOnHost(sl: Slot, host: string) {
    sl.worker.Some? && (sl.host == "" || sl.host == host)
  }

  /** SessionPool::anyOtherLiveOnHost; a live slot with no host yet counts for every host. */
  predicate AnyOtherLive(slots: seq<Slot>, slot: int, host: string) {
    exists i :: 0 <= i < |slots| && i != slot && LiveOnHost(slots[i], host)
  }

  predicate InUse(sl: Slot) {
    sl.worker.Some? || sl.uid != "" || sl.token != ""
  }

  /** SessionPool::acquire: the lowest free index from @p i up, or a new slot, or none. */
  function Acquire(s: State, i: nat): (r: (Option<nat>, State))
    requires i <= |s.slots|
    ensures s.slots <= r.1.slots && r.1 == s.(slots := r.1.slots)
    ensures forall k :: |s.slots| <= k < |r.1.slots| ==> r.1.slots[k] == FREE
    ensures r.0.Some? ==> && i <= r.0.value < |r.1.slots| && !InUse(r.1.slots[r.0.value])
                          && forall k :: i <= k < r.0.value ==> InUse(r.1.slots[k])
    ensures r.0.None? ==> |s.slots| >= s.maxSlots && forall k :: i <= k < |s.slots| ==> InUse(s.slots[k])
    decreases |s.slots| - i
  {
    if i < |s.slots| then
      if InUse(s.slots[i]) then Acquire(s, i + 1) else (Some(i), s)
    else if |s.slots| >= s.maxSlots then (None, s)
    else (Some(|s.slots|), s.(slots := s.slots + [FREE]))
  }

  /** SessionPool::indexOfClientUniqueId, from @p i up. */
  function IndexOfUid(s: State, uid: string, i: nat): (r: Option<nat>)
    requires i <= |s.slots|
    ensures r.Some? ==> r.value < |s.slots| && s.slots[r.value].uid == uid && uid != ""
    ensures r.None? && uid != "" ==> forall k :: i <= k < |s.slots| ==> s.slots[k].uid != uid
    decreases |s.slots| - i
  {
    if uid == "" || i == |s.slots| then None
    else if s.slots[i].uid == uid then Some(i)
    else IndexOfUid(s, uid, i + 1)
  }

  function Generation(s: State, slot: nat): nat {
    if slot in s.generation then s.generation[slot] else 0
  }

  // ----- detachWorkerSlot, dropPendingHostCancel ------------------------------------------------

  /** The worker leaves its slot and its ended handler is disconnected. */
  function Detach(s: State, i: nat): (r: State)
    requires i < |s.slots|
    ensures r == s.(slots := s.slots[i := FREE], processes := r.processes)
  {
    var w := s.slots[i].worker;
    s.(slots := s.slots[i := FREE],
       processes := if w.Some? && w.value in s.processes
                    then s.processes[w.value := s.processes[w.value].(handled := false)] else s.processes)
  }

  /** Detach every slot of [i, n) whose worker is live, as the loops of /quit and endPlayerSessions do. */
  function DetachLive(s: State, i: nat, n: nat): (r: State)
    requires n <= |s.slots|
    ensures |r.slots| == |s.slots| && r == s.(slots := r.slots, processes := r.processes)
    decreases n - i
  {
    if i >= n then s else DetachLive(if Live(s, i) then Detach(s, i) else s, i + 1, n)
  }

  function DropHeld(s: State, uid: string, host: string): (r: State)
    ensures r == s.(held := r.held)
  {
    if uid in s.held && s.held[uid].host == host then s.(held := s.held - {uid}) else s
  }

  /** Arm a new timer for @p info; a previous entry of the same uid is replaced, whatever its host. */
  function Hold(s: State, info: TimerInfo): (r: State)
    ensures r == s.(held := r.held, timers := r.timers, nextTimer := r.nextTimer)
  {
    var d := DropHeld(s, info.uid, info.host);
    d.(held := d.held[info.uid := Held(d.nextTimer, info.host)],
       timers := d.timers[d.nextTimer := info],
       nextTimer := d.nextTimer + 1)
  }

  // ----- /api/hosts/:id/start -------------------------------------------------------------------

  datatype Backend = Backend(multiUser: bool, concurrentApps: bool, cap: nat)

  /** @p device is the raw client_uniqueid; @p chainOk: the transport index lands inside the chain. */
  datatype StartRequest = StartRequest(host: string, backend: Backend, standby: bool, sessionSlot: int, device: string,
                                       app: int, token: string, chainOk: bool, display: bool)

  predicate HexDigit(c: char) {
    '0' <= c <= '9' || 'A' <= c <= 'F'
  }

  /** The uniqueid that reaches the launch URL: hex digits of the raw one, upper-cased, 32 at most. */
  function Sanitize(raw: string, acc: string): string
    decreases |raw|
  {
    if raw == [] || |acc| >= 32 then acc
    else Sanitize(raw[1..], if HexDigit(UpperChar(raw[0])) then acc + [UpperChar(raw[0])] else acc)
  }

  function Uid(device: string): string {
    Sanitize(device, "")
  }

  predicate HeldByAnotherDevice(s: State, q: StartRequest, i: nat) {
    && q.backend.multiUser && Live(s, i) && s.slots[i].host == q.host
    && s.slots[i].uid != "" && s.slots[i].uid != q.device
  }

  predicate StreamsAnotherApp(s: State, q: StartRequest, i: nat) {
    && q.backend.concurrentApps && Live(s, i) && s.slots[i].host == q.host
    && s.slots[i].app != 0 && s.slots[i].app != q.app
  }

  predicate OnAnotherHost(s: State, q: StartRequest, i: nat) {
    Live(s, i) && s.slots[i].host != "" && s.slots[i].host != q.host
  }

  /** What the take-over leaves alone in the owner pair. */
  predicate Spared(s: State, q: StartRequest, i: nat) {
    OnAnotherHost(s, q, i) || HeldByAnotherDevice(s, q, i) || StreamsAnotherApp(s, q, i)
  }

  /** The unit the cap counts: a device, or a device and an app where apps run side by side. */
  datatype Viewer = Viewer(device: string, app: int)

  function ViewerOf(q: StartRequest, device: string, app: int): Viewer {
    Viewer(device, if q.backend.concurrentApps then app else 0)
  }

  function Viewers(s: State, q: StartRequest, i: nat): set<Viewer>
    requires i <= |s.slots|
    decreases |s.slots| - i
  {
    if i == |s.slots| then
      {ViewerOf(q, if q.device == "" then "#new" else q.device, q.app)}
    else
      var sl := s.slots[i];
      (if Live(s, i) && sl.host == q.host
       then {ViewerOf(q, if sl.uid == "" then "#" + Decimal(i) else sl.uid, sl.app)} else {})
      + Viewers(s, q, i + 1)
  }

  /** A slot this browser already streams this host (and app) from. */
  function Mine(s: State, q: StartRequest): Option<nat> {
    var m := IndexOfUid(s, q.device, 0);
    if m.Some? && s.slots[m.value].host == q.host && !StreamsAnotherApp(s, q, m.value) then m else None
  }

  /** The slot a launch runs in, and the pool after choosing it. None is the 503 answer. */
  function ChooseSlot(s: State, q: StartRequest): (r: (Option<nat>, State))
    requires |s.slots| >= TOTAL_SLOTS
    ensures s.slots <= r.1.slots && r.1 == s.(slots := r.1.slots)
    ensures forall k :: |s.slots| <= k < |r.1.slots| ==> r.1.slots[k] == FREE
    ensures r.0.Some? ==> r.0.value < |r.1.slots|
  {
    if q.standby then (Some(if q.sessionSlot < 0 then 0 else if q.sessionSlot > 1 then 1 else q.sessionSlot), s)
    else if |Viewers(s, q, 0)| > q.backend.cap then (None, s)
    else if !Spared(s, q, 0) then (Some(0), s)
    else if Mine(s, q).Some? then (Mine(s, q), s)
    else Acquire(s, TOTAL_SLOTS)
  }

  /** The take-over loop of a fresh launch over owner slots [i, 2). */
  function TakeOver(s: State, q: StartRequest, i: nat): (r: State)
    requires |s.slots| >= TOTAL_SLOTS
    ensures |r.slots| == |s.slots| && r == s.(slots := r.slots, processes := r.processes)
    decreases OWNER_SLOTS - i
  {
    if i >= OWNER_SLOTS then s
    else if Spared(s, q, i) then TakeOver(s, q, i + 1)
    else TakeOver(Detach(s, i), q, i + 1)
  }

  /** Everything a launch tears down before it starts its own worker. */
  function Reclaim(s: State, q: StartRequest, slot: nat): (r: State)
    requires TOTAL_SLOTS <= |s.slots| && slot < |s.slots|
    ensures |r.slots| == |s.slots| && r == s.(slots := r.slots, processes := r.processes)
  {
    if q.standby then Detach(s, slot)
    else
      var t := TakeOver(s, q, 0);
      if slot >= OWNER_SLOTS then Detach(t, slot) else t
  }

  /** A launch enters the queue as the newest of its slot. */
  function Enqueue(s: State, l: Launch): State {
    s.(generation := s.generation[l.slot := Generation(s, l.slot) + 1],
       launches := s.launches[s.nextWorker := l.(gen := Generation(s, l.slot) + 1)],
       nextWorker := s.nextWorker + 1)
  }

  function FirstStage(previous: Option<Worker>, display: bool): Stage {
    if previous.Some? then AwaitPrevious(previous.value) else if display then AwaitDisplay else AwaitRouter
  }

  /** The state a start reaches just before its own launch is queued. */
  function Cleared(s: State, q: StartRequest): (r: State)
    requires |s.slots| >= TOTAL_SLOTS && ChooseSlot(s, q).0.Some?
    ensures r == s.(slots := r.slots, processes := r.processes, held := r.held)
  {
    var (choice, c) := ChooseSlot(s, q);
    var r := Reclaim(c, q, choice.value);
    if q.app > 0 && Uid(q.device) != "" then DropHeld(r, Uid(q.device), q.host) else r
  }

  function OwnerLaunch(s: State, q: StartRequest): (l: Launch)
    requires |s.slots| >= TOTAL_SLOTS && ChooseSlot(s, q).0.Some?
    ensures l.slot == ChooseSlot(s, q).0.value && l.host == q.host
  {
    var (choice, c) := ChooseSlot(s, q);
    Launch(choice.value, 0, false, q.standby, q.device, Uid(q.device), q.host, q.token, q.app, q.display,
           FirstStage(c.slots[choice.value].worker, q.display))
  }

  /** The answers 400 (no app) and 502 (chain exhausted) come after the take-over. */
  function OwnerStart(s: State, q: StartRequest): State
    requires |s.slots| >= TOTAL_SLOTS
  {
    if q.host == "" then s
    else if ChooseSlot(s, q).0.None? then ChooseSlot(s, q).1
    else if q.app <= 0 || !q.chainOk then Cleared(s, q)
    else Enqueue(Cleared(s, q), OwnerLaunch(s, q))
  }

  // ----- startPlayerStream ----------------------------------------------------------------------

  /** @p sameStream: a later rung or the codec fallback; @p freshUid: what QUuid would mint. */
  datatype JoinRequest = JoinRequest(slot: nat, host: string, app: int, sameStream: bool, freshUid: string,
                                     accepted: bool, chainOk: bool)

  predicate ChainRelaunch(s: State, j: JoinRequest) {
    j.sameStream && j.slot in s.playerUids && s.playerUids[j.slot] != ""
  }

  function GuestJoin(s: State, j: JoinRequest): (r: State)
    requires OWNER_SLOTS <= j.slot < TOTAL_SLOTS <= |s.slots|
    ensures r.slots == s.slots || r.slots == s.slots[j.slot := FREE]
  {
    if j.host == "" || !j.accepted then s else
    var own := s.slots[j.slot].worker;
    var previous := if own.Some? then own else if j.slot in s.retiring && s.retiring[j.slot] in s.processes then Some(s.retiring[j.slot]) else None;
    var r := Detach(s, j.slot).(retiring := s.retiring - {j.slot});
    if !j.chainOk then r else
    var uid := if ChainRelaunch(r, j) then r.playerUids[j.slot] else j.freshUid;
    var p := r.(playerUids := r.playerUids[j.slot := uid]);
    var d := if ChainRelaunch(r, j) then DropHeld(p, uid, j.host) else p;
    Enqueue(d, Launch(j.slot, 0, true, false, "", uid, j.host, "", j.app, false, FirstStage(previous, false)))
  }

  // ----- The launch's own callbacks -------------------------------------------------------------

  predicate Newest(s: State, l: Launch) {
    Generation(s, l.slot) == l.gen
  }

  function Forget(s: State, w: Worker): State {
    s.(launches := s.launches - {w})
  }

  /** The previous worker's object is gone: its destroyed() runs the deferred start. */
  function PreviousGone(s: State, w: Worker): (r: State)
    ensures r == s.(launches := r.launches)
  {
    if w in s.launches && s.launches[w].stage.AwaitPrevious? && s.launches[w].stage.previous !in s.processes
    then s.(launches := s.launches[w := s.launches[w].(stage := if s.launches[w].display then AwaitDisplay else AwaitRouter)])
    else s
  }

  function DisplayAnswer(s: State, w: Worker, ok: bool): (r: State)
    ensures r == s.(launches := r.launches)
  {
    if w !in s.launches || s.launches[w].stage != AwaitDisplay then s
    else if !Newest(s, s.launches[w]) || !ok then Forget(s, w)
    else s.(launches := s.launches[w := s.launches[w].(stage := AwaitRouter)])
  }

  /** The worker is spawned and takes its slot. */
  function Install(s: State, w: Worker, l: Launch): State
    requires l.slot < |s.slots|
  {
    Forget(s, w).(
      slots := s.slots[l.slot := Slot(Some(w), l.uid, l.host, if l.guest then s.slots[l.slot].token else l.token, l.app)],
      processes := s.processes[w := Process(l.slot, l.guest, l.standby, l.device, l.uid, l.host, true, false)])
  }

  function RouterAnswer(s: State, w: Worker, spawned: bool): (r: State)
    ensures r == s.(launches := r.launches, slots := r.slots, processes := r.processes)
  {
    if w !in s.launches || s.launches[w].stage != AwaitRouter then s
    else if !Newest(s, s.launches[w]) || !spawned || s.launches[w].slot >= |s.slots| then Forget(s, w)
    else Install(s, w, s.launches[w])
  }

  /** responseReady: a streaming worker makes its uid live; a refused standby lets go of its slot. */
  function Responded(s: State, w: Worker, ok: bool): (r: State)
    ensures r == s.(slots := r.slots, liveUids := r.liveUids) && |r.slots| == |s.slots|
    ensures forall i :: 0 <= i < |s.slots| ==> r.slots[i] == s.slots[i] || r.slots[i].worker.None?
  {
    if w !in s.processes then s
    else
      var p := s.processes[w];
      if ok then s.(liveUids := s.liveUids + {p.uid})
      else if p.standby && p.slot < |s.slots| && s.slots[p.slot].worker == Some(w)
      then s.(slots := s.slots[p.slot := FREE.(app := s.slots[p.slot].app)])
      else s
  }

  // ----- Worker ends ----------------------------------------------------------------------------

  /** cancelGuestHostSessionSoon */
  function GuestCancelSoon(s: State, slot: nat, host: string, uid: string, known: bool): (r: State)
    ensures r == s.(held := r.held, timers := r.timers, nextTimer := r.nextTimer, liveUids := r.liveUids)
  {
    if !known || uid == "" || AnyOtherLive(s.slots, slot, host) then s.(liveUids := s.liveUids - {uid})
    else Hold(s, TimerInfo(uid, host, slot, true))
  }

  function ClearIfHolding(s: State, slot: nat, w: Worker): (r: State)
    ensures r == s.(slots := r.slots) && |r.slots| == |s.slots|
    ensures forall i :: 0 <= i < |s.slots| ==> r.slots[i] == if i == slot && s.slots[i].worker == Some(w) then FREE else s.slots[i]
  {
    if slot < |s.slots| && s.slots[slot].worker == Some(w) then s.(slots := s.slots[slot := FREE]) else s
  }

  /** The two ended handlers: the held /cancel first, then the slot, if it is still this worker's. */
  function EndedHandler(s: State, w: Worker, p: Process, known: bool): (r: State)
    ensures r == s.(slots := ClearIfHolding(s, p.slot, w).slots, held := r.held, timers := r.timers,
                    nextTimer := r.nextTimer, liveUids := r.liveUids)
  {
    var c := if p.guest then GuestCancelSoon(s, p.slot, p.host, p.uid, known)
             else if AnyOtherLive(s.slots, p.slot, p.host) then s
             else Hold(s, TimerInfo(p.uid, p.host, p.slot, false));
    ClearIfHolding(c, p.slot, w)
  }

  /** The ended signal. A disconnected worker only marks itself; a connected one runs its handler. */
  function WorkerEnded(s: State, w: Worker, known: bool): (r: State)
    ensures |r.slots| == |s.slots|
    ensures forall i :: 0 <= i < |s.slots| ==> r.slots[i] == s.slots[i] || (s.slots[i].worker == Some(w) && r.slots[i] == FREE)
  {
    if w !in s.processes || s.processes[w].ended then s
    else
      var p := s.processes[w];
      var e := s.(processes := s.processes[w := p.(handled := false, ended := true)]);
      if p.handled then EndedHandler(e, w, p, known) else e
  }

  /** exited() follows ended(): the object goes. */
  function WorkerDestroyed(s: State, w: Worker): (r: State)
    ensures r == s.(processes := r.processes)
  {
    if w in s.processes && s.processes[w].ended then s.(processes := s.processes - {w}) else s
  }

  // ----- Held cancels ---------------------------------------------------------------------------

  predicate Armed(s: State, t: Timer) {
    t in s.timers && s.timers[t].uid in s.held && s.held[s.timers[t].uid].timer == t
  }

  function TimerFired(s: State, t: Timer, known: bool): (r: State)
    ensures r == s.(held := r.held, timers := s.timers - {t}, liveUids := r.liveUids, log := r.log)
    ensures r.held == if Armed(s, t) then s.held - {s.timers[t].uid} else s.held
  {
    if t !in s.timers then s
    else
      var info := s.timers[t];
      var g := s.(timers := s.timers - {t});
      if !Armed(s, t) then g
      else
        var e := g.(held := g.held - {info.uid});
        if info.guest then
          var l := e.(liveUids := e.liveUids - {info.uid});
          if !known || AnyOtherLive(l.slots, info.slot, info.host) then l
          else if info.slot < |l.slots| && l.slots[info.slot].worker.Some? && l.slots[info.slot].host == info.host then l
          else l.(log := l.log + [HeldCancel(t, info)])
        else if !known || AnyOtherLive(e.slots, info.slot, info.host) then e
        else e.(log := e.log + [HeldCancel(t, info)], liveUids := e.liveUids - {info.uid})
  }

  // ----- /quit, /stop-session, stopPlayerStream -------------------------------------------------

  datatype QuitRequest = QuitRequest(host: string, uid: string, slot: Option<nat>, token: string, keep: bool)

  predicate QuitOwns(s: State, q: QuitRequest, i: nat)
    requires i < |s.slots|
  {
    var sl := s.slots[i];
    && sl.worker.Some?
    && (q.slot.None? || q.slot.value == i)
    && (sl.uid == "" || q.uid == "" || q.uid == sl.uid)
    && (q.token == "" || sl.token == "" || q.token == sl.token)
  }

  function QuitSlots(s: State, q: QuitRequest, i: nat): (r: State)
    requires |s.slots| >= TOTAL_SLOTS
    ensures |r.slots| == |s.slots| && r == s.(slots := r.slots, processes := r.processes)
    decreases OWNER_SLOTS - i
  {
    if i >= OWNER_SLOTS then s else QuitSlots(if QuitOwns(s, q, i) then Detach(s, i) else s, q, i + 1)
  }

  function EndPlayers(s: State): (r: State)
    requires |s.slots| >= TOTAL_SLOTS
    ensures |r.slots| == |s.slots| && r == s.(slots := r.slots, processes := r.processes)
  {
    DetachLive(s, OWNER_SLOTS, TOTAL_SLOTS)
  }

  function Quit(s: State, q: QuitRequest): State
    requires |s.slots| >= TOTAL_SLOTS
  {
    var e := if q.keep then s else EndPlayers(s);
    var r := QuitSlots(e, q, 0);
    if q.keep then r else
    var d := DropHeld(r, q.uid, q.host);
    d.(liveUids := d.liveUids - {q.uid}, log := d.log + [Cancel(q.uid, q.host)])
  }

  /** Every live uid is cancelled by name, then an unscoped sweep. @p order lists them as the hash would. */
  function StopSession(s: State, host: string, order: seq<string>): (r: State)
    requires |s.slots| >= TOTAL_SLOTS
    ensures r == s.(slots := r.slots, processes := r.processes, liveUids := r.liveUids, log := r.log)
  {
    var e := EndPlayers(s);
    var r := Detach(Detach(e, 0), 1);
    r.(liveUids := {}, log := r.log + seq(|order|, k requires 0 <= k < |order| => Cancel(order[k], host)) + [Cancel("", host)])
  }

  function StopPlayer(s: State, slot: nat, known: bool): (r: State)
    requires OWNER_SLOTS <= slot < TOTAL_SLOTS <= |s.slots|
    ensures r.slots == s.slots || r.slots == s.slots[slot := FREE]
  {
    var w := s.slots[slot].worker;
    if w.None? then s else
    var host := s.slots[slot].host;
    var d := Detach(s, slot).(retiring := s.retiring[slot := w.value]);
    GuestCancelSoon(d, slot, host, PlayerUid(d, slot), known)
  }

  /** The uniqueid the slot's player last streamed under. */
  function PlayerUid(s: State, slot: nat): string {
    if slot in s.playerUids then s.playerUids[slot] else ""
  }

  /** ShareManager ended a guest: its worker is told and leaves. */
  function PlayerMustDisconnect(s: State, slot: nat): (r: State)
    requires OWNER_SLOTS <= slot < TOTAL_SLOTS <= |s.slots|
    ensures r == s.(slots := r.slots, processes := r.processes)
  {
    if Live(s, slot) then Detach(s, slot) else s
  }

  // ----- Any step -------------------------------------------------------------------------------

  datatype Event =
    | EStart(start: StartRequest)
    | EJoin(join: JoinRequest)
    | EPreviousGone(w: Worker)
    | EDisplay(w: Worker, ok: bool)
    | ERouter(w: Worker, spawned: bool)
    | EResponded(w: Worker, ok: bool)
    | EEnded(w: Worker, known: bool)
    | EDestroyed(w: Worker)
    | ETimer(t: Timer, known: bool)
    | EQuit(quit: QuitRequest)
    | EStopSession(host: string, order: seq<string>)
    | EStopPlayer(slot: nat, known: bool)
    | EMustDisconnect(slot: nat)

  /** Every one of @p uids once, in some order. */
  predicate Lists(order: seq<string>, uids: set<string>) {
    && (set u | u in order) == uids
    && forall i, j :: 0 <= i < j < |order| ==> order[i] != order[j]
  }

  predicate Possible(s: State, e: Event) {
    && |s.slots| >= TOTAL_SLOTS
    && match e
       case EStopSession(_, order) => Lists(order, s.liveUids)
       case EJoin(j) => OWNER_SLOTS <= j.slot < TOTAL_SLOTS
       case EStopPlayer(slot, _) => OWNER_SLOTS <= slot < TOTAL_SLOTS
       case EMustDisconnect(slot) => OWNER_SLOTS <= slot < TOTAL_SLOTS
       case _ => true
  }

  function Step(s: State, e: Event): State
    requires Possible(s, e)
  {
    match e
    case EStart(q) => OwnerStart(s, q)
    case EJoin(j) => GuestJoin(s, j)
    case EPreviousGone(w) => PreviousGone(s, w)
    case EDisplay(w, ok) => DisplayAnswer(s, w, ok)
    case ERouter(w, spawned) => RouterAnswer(s, w, spawned)
    case EResponded(w, ok) => Responded(s, w, ok)
    case EEnded(w, known) => WorkerEnded(s, w, known)
    case EDestroyed(w) => WorkerDestroyed(s, w)
    case ETimer(t, known) => TimerFired(s, t, known)
    case EQuit(q) => Quit(s, q)
    case EStopSession(host, order) => StopSession(s, host, order)
    case EStopPlayer(slot, known) => StopPlayer(s, slot, known)
    case EMustDisconnect(slot) => PlayerMustDisconnect(s, slot)
  }
}
