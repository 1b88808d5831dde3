/**
 The held Sunshine /cancel over whole runs of the stream-slot machine: which timers may still send, what
 disarms one for good, and what is true of the slots when one does send.
 */
module HostCancel {
  import opened Base
  import opened SlotState
  import opened SlotSafety

  // ----- What a step may do to the entries ------------------------------------------------------

  /** Entries and timers only go, unless they belong to a timer that did not exist before. */
  ghost predicate Aged(s: State, s': State) {
    && s.nextTimer <= s'.nextTimer
    && (forall u :: u in s'.held ==> (u in s.held && s'.held[u] == s.held[u]) || s'.held[u].timer >= s.nextTimer)
    && (forall t :: t in s'.timers ==> (t in s.timers && s'.timers[t] == s.timers[t]) || t >= s.nextTimer)
  }

  lemma AgedComposes(a: State, b: State, c: State)
    requires Aged(a, b) && Aged(b, c)
    ensures Aged(a, c)
  {
  }

  lemma SameEntriesAge(s: State, s': State)
    requires s'.held == s.held && s'.timers == s.timers && s'.nextTimer == s.nextTimer
    ensures Aged(s, s')
  {
  }

  lemma HoldAges(s: State, info: TimerInfo)
    ensures Aged(s, Hold(s, info))
  {
  }

  lemma OwnerStartAges(s: State, q: StartRequest)
    requires |s.slots| >= TOTAL_SLOTS
    ensures Aged(s, OwnerStart(s, q)) && OwnerStart(s, q).log == s.log
  {
    hide ChooseSlot, Uid, OwnerLaunch, Reclaim;
    if ChooseSlot(s, q).0.Some? { assert Aged(s, Cleared(s, q)); }
  }

  lemma GuestJoinAges(s: State, j: JoinRequest)
    requires OWNER_SLOTS <= j.slot < TOTAL_SLOTS <= |s.slots|
    ensures Aged(s, GuestJoin(s, j)) && GuestJoin(s, j).log == s.log
  {
  }

  lemma EndedAges(s: State, w: Worker, known: bool)
    ensures Aged(s, WorkerEnded(s, w, known)) && WorkerEnded(s, w, known).log == s.log
  {
    hide Aged, Hold, AnyOtherLive, ClearIfHolding;
    SameEntriesAge(s, s);
    if w in s.processes {
      var p := s.processes[w];
      var e := s.(processes := s.processes[w := p.(handled := false, ended := true)]);
      HoldAges(e, TimerInfo(p.uid, p.host, p.slot, p.guest));
      SameEntriesAge(s, e);
      AgedComposes(s, e, Hold(e, TimerInfo(p.uid, p.host, p.slot, p.guest)));
      EndedEntries(s, w, known);
    }
  }

  lemma EndedEntries(s: State, w: Worker, known: bool)
    requires w in s.processes
    ensures var p := s.processes[w];
            var h := Hold(s.(processes := s.processes[w := p.(handled := false, ended := true)]),
                          TimerInfo(p.uid, p.host, p.slot, p.guest));
            var r := WorkerEnded(s, w, known);
            || (r.held == s.held && r.timers == s.timers && r.nextTimer == s.nextTimer)
            || (r.held == h.held && r.timers == h.timers && r.nextTimer == h.nextTimer)
    ensures var p := s.processes[w];
            var h := Hold(s.(processes := s.processes[w := p.(handled := false, ended := true)]),
                          TimerInfo(p.uid, p.host, p.slot, p.guest));
            Aged(s, h) ==> Aged(s, WorkerEnded(s, w, known))
  {
  }

  lemma QuitAges(s: State, q: QuitRequest)
    requires |s.slots| >= TOTAL_SLOTS
    ensures Aged(s, Quit(s, q))
  {
  }

  lemma StopPlayerAges(s: State, slot: nat, known: bool)
    requires OWNER_SLOTS <= slot < TOTAL_SLOTS <= |s.slots|
    ensures Aged(s, StopPlayer(s, slot, known)) && StopPlayer(s, slot, known).log == s.log
  {
    hide Aged, Hold, Detach, AnyOtherLive;
    SameEntriesAge(s, StopPlayer(s, slot, known).(held := s.held, timers := s.timers, nextTimer := s.nextTimer));
    if s.slots[slot].worker.Some? {
      var d := Detach(s, slot).(retiring := s.retiring[slot := s.slots[slot].worker.value]);
      var info := TimerInfo(if slot in d.playerUids then d.playerUids[slot] else "", s.slots[slot].host, slot, true);
      SameEntriesAge(s, d);
      HoldAges(d, info);
      AgedComposes(s, d, Hold(d, info));
      SameEntriesAge(s, d.(liveUids := d.liveUids - {info.uid}));
    } else {
      SameEntriesAge(s, s);
    }
  }

  /** Neither entries nor timers change. */
  ghost predicate SameEntries(s: State, s': State) {
    s'.held == s.held && s'.timers == s.timers
  }

  /** The steps that have nothing to do with held cancels. */
  predicate Elsewhere(e: Event) {
    !e.EStart? && !e.EJoin? && !e.EEnded? && !e.EStopPlayer? && !e.EQuit? && !e.ETimer?
  }

  lemma ElsewhereKeepsEntries(s: State, e: Event)
    requires Possible(s, e) && Elsewhere(e)
    ensures SameEntries(s, Step(s, e)) && Step(s, e).nextTimer == s.nextTimer
  {
    hide PreviousGone, DisplayAnswer, RouterAnswer, Responded, WorkerDestroyed, StopSession, PlayerMustDisconnect, Possible,
         OwnerStart, GuestJoin, WorkerEnded, StopPlayer, Quit, TimerFired;
  }

  lemma FiringAges(s: State, t: Timer, known: bool)
    ensures Aged(s, TimerFired(s, t, known))
  {
    hide TimerFired;
  }

  lemma StepAges(s: State, e: Event)
    requires Possible(s, e)
    ensures Aged(s, Step(s, e))
  {
    hide OwnerStart, GuestJoin, PreviousGone, DisplayAnswer, RouterAnswer, Responded, WorkerEnded, WorkerDestroyed, TimerFired,
         Quit, StopSession, StopPlayer, PlayerMustDisconnect, Aged;
    match e
    case EStart(q) => OwnerStartAges(s, q);
    case EJoin(j) => GuestJoinAges(s, j);
    case EEnded(w, known) => EndedAges(s, w, known);
    case EQuit(q) => QuitAges(s, q);
    case EStopPlayer(slot, known) => StopPlayerAges(s, slot, known);
    case ETimer(t, known) => FiringAges(s, t, known);
    case _ =>
      ElsewhereKeepsEntries(s, e);
      SameEntriesAge(s, Step(s, e));
  }

  // ----- When a held cancel is sent -------------------------------------------------------------

  /** Every live slot but @p slot is known to stream another host. */
  ghost predicate OthersElsewhere(slots: seq<Slot>, slot: int, host: string) {
    forall i :: 0 <= i < |slots| && i != slot && slots[i].worker.Some? ==> slots[i].host != "" && slots[i].host != host
  }

  lemma NoOtherIff(slots: seq<Slot>, slot: int, host: string)
    ensures !AnyOtherLive(slots, slot, host) <==> OthersElsewhere(slots, slot, host)
  {
  }

  /** No other slot streams the host, nor, for a guest's cancel, the guest's own slot. */
  ghost predicate SafeToSend(slots: seq<Slot>, info: TimerInfo) {
    && OthersElsewhere(slots, info.slot, info.host)
    && (info.guest ==> !(info.slot < |slots| && slots[info.slot].worker.Some? && slots[info.slot].host == info.host))
  }

  /** A firing timer sends exactly when its entry is still its own and the host is still known and idle. */
  lemma FiringSendsIff(s: State, t: Timer, known: bool)
    ensures TimerFired(s, t, known).log
            == if Armed(s, t) && known && SafeToSend(s.slots, s.timers[t]) then s.log + [HeldCancel(t, s.timers[t])] else s.log
    ensures !Armed(TimerFired(s, t, known), t)
  {
    if t in s.timers { NoOtherIff(s.slots, s.timers[t].slot, s.timers[t].host); }
    hide AnyOtherLive, OthersElsewhere;
  }

  /**
   The same read off the slots of a sound state, where a live slot always has its host: the cancel is sent
   exactly when the host is known and no other slot streams it, nor, for a guest's, the guest's own.
   */
  lemma FiringSendsExactly(s: State, t: Timer, known: bool)
    requires Inv(s) && Armed(s, t)
    ensures var info := s.timers[t];
            var busy := exists i :: 0 <= i < |s.slots| && (i != info.slot || info.guest)
                                    && s.slots[i].worker.Some? && s.slots[i].host == info.host;
            TimerFired(s, t, known).log == if known && !busy then s.log + [HeldCancel(t, info)] else s.log
  {
    FiringSendsIff(s, t, known);
    LiveSlotsHaveHosts(s);
    hide Inv, TimerFired, Armed;
  }

  lemma LiveSlotsHaveHosts(s: State)
    requires Inv(s)
    ensures forall i :: 0 <= i < |s.slots| && s.slots[i].worker.Some? ==> s.slots[i].host != ""
  {
    hide LaunchesInOrder, WorkersNumbered, NamedByDevice, EntriesHaveTimers;
  }

  /** The log grows by no held cancel. */
  ghost predicate Quiet(log: seq<Output>, log': seq<Output>) {
    log <= log' && forall k :: |log| <= k < |log'| ==> log'[k].Cancel?
  }

  /** The step is @p t's own firing: it was armed, sending was safe, and it is spent. */
  ghost predicate Sends(s: State, t: Timer, s': State) {
    && Armed(s, t) && SafeToSend(s.slots, s.timers[t]) && !Armed(s', t)
    && s'.log == s.log + [HeldCancel(t, s.timers[t])]
  }

  lemma StopsAreQuiet(s: State, q: QuitRequest, host: string, order: seq<string>)
    requires |s.slots| >= TOTAL_SLOTS
    ensures Quiet(s.log, Quit(s, q).log) && Quiet(s.log, StopSession(s, host, order).log)
  {
  }

  /** Held cancels leave only from a timer event, with the host known and the timer armed. */
  lemma StepLog(s: State, e: Event)
    requires Possible(s, e)
    ensures Quiet(s.log, Step(s, e).log) || (e.ETimer? && e.known && Sends(s, e.t, Step(s, e)))
  {
    hide OwnerStart, GuestJoin, PreviousGone, DisplayAnswer, Responded, WorkerEnded, WorkerDestroyed, TimerFired,
         StopPlayer, Detach, Quit, StopSession, Armed, SafeToSend;
    match e
    case EStart(q) => OwnerStartAges(s, q);
    case EJoin(j) => GuestJoinAges(s, j);
    case EEnded(w, known) => EndedAges(s, w, known);
    case EQuit(q) => StopsAreQuiet(s, q, "", []);
    case EStopSession(host, order) => StopsAreQuiet(s, QuitRequest("", "", None, "", true), host, order);
    case EStopPlayer(slot, known) => StopPlayerAges(s, slot, known);
    case ETimer(t, known) => FiringSendsIff(s, t, known);
    case _ =>
  }

  // ----- Whole runs -----------------------------------------------------------------------------

  /** An old timer that is not armed never is again. */
  lemma UnarmedStays(s: State, s': State, t: Timer)
    requires Aged(s, s') && t < s.nextTimer && !Armed(s, t)
    ensures !Armed(s', t) && t < s'.nextTimer
  {
  }

  lemma {:induction false} UnarmedForGood(trace: seq<State>, es: seq<Event>, k: nat, m: nat, t: Timer)
    requires Run(trace, es) && k <= m < |trace| && t < trace[k].nextTimer && !Armed(trace[k], t)
    ensures !Armed(trace[m], t) && t < trace[m].nextTimer
    decreases m - k
  {
    if k < m {
      assert StepAt(trace, es, k);
      hide Step, Armed, Aged;
      StepAges(trace[k], es[k]);
      UnarmedStays(trace[k], trace[k + 1], t);
      UnarmedForGood(trace, es, k + 1, m, t);
    }
  }

  /** No held cancel of @p t from position @p i of the log on. */
  ghost predicate SilentFrom(log: seq<Output>, i: nat, t: Timer) {
    forall k :: i <= k < |log| && log[k].HeldCancel? ==> log[k].timer != t
  }

  /** Once a timer's entry is dropped, replaced or spent, that timer sends nothing for the rest of the run. */
  lemma {:induction false} DroppedTimerNeverSends(trace: seq<State>, es: seq<Event>, k: nat, m: nat, t: Timer)
    requires Run(trace, es) && k <= m < |trace| && t < trace[k].nextTimer && !Armed(trace[k], t)
    ensures trace[k].log <= trace[m].log && SilentFrom(trace[m].log, |trace[k].log|, t)
    decreases m - k
  {
    if k < m {
      assert StepAt(trace, es, m - 1);
      hide Step, Armed, Quiet, Sends, SilentFrom;
      DroppedTimerNeverSends(trace, es, k, m - 1, t);
      UnarmedForGood(trace, es, k, m - 1, t);
      StepLog(trace[m - 1], es[m - 1]);
      SilenceKept(trace[k].log, trace[m - 1], es[m - 1], trace[m], t);
    }
  }

  lemma SilenceKept(base: seq<Output>, s: State, e: Event, s': State, t: Timer)
    requires base <= s.log && SilentFrom(s.log, |base|, t) && !Armed(s, t)
    requires Quiet(s.log, s'.log) || (e.ETimer? && Sends(s, e.t, s'))
    ensures base <= s'.log && SilentFrom(s'.log, |base|, t)
  {
  }

  /** Every held cancel ever sent left from its own armed timer, in a step whose slots made it safe. */
  lemma HeldCancelsAreSafe(trace: seq<State>, es: seq<Event>, k: nat, i: nat)
    requires Run(trace, es) && k < |es| && |trace[k].log| <= i < |trace[k + 1].log| && trace[k + 1].log[i].HeldCancel?
    ensures var t, info := trace[k + 1].log[i].timer, trace[k + 1].log[i].info;
            && es[k] == ETimer(t, true) && Armed(trace[k], t) && info == trace[k].timers[t]
            && (forall i :: 0 <= i < |trace[k].slots| && (i != info.slot || info.guest) && trace[k].slots[i].worker.Some?
                  ==> trace[k].slots[i].host != info.host)
  {
    assert StepAt(trace, es, k);
    hide Step, Armed;
    StepLog(trace[k], es[k]);
  }

  /** Logged held cancels are spent, and no two share a timer. */
  ghost predicate Spent(s: State) {
    && (forall i :: 0 <= i < |s.log| && s.log[i].HeldCancel? ==> !Armed(s, s.log[i].timer) && s.log[i].timer < s.nextTimer)
    && (forall i, j :: 0 <= i < j < |s.log| && s.log[i].HeldCancel? && s.log[j].HeldCancel?
                       ==> s.log[i].timer != s.log[j].timer)
  }

  /** No timer sends twice. */
  lemma {:induction false} HeldCancelSentOnce(trace: seq<State>, es: seq<Event>, k: nat)
    requires Run(trace, es) && k < |trace|
    ensures Spent(trace[k])
  {
    hide Step, Inv, Possible, StepAt, Aged, Sends, Quiet;
    if k > 0 {
      hide Spent;
      HeldCancelSentOnce(trace, es, k - 1);
      RunsStep(trace, es, k - 1);
      StepLog(trace[k - 1], es[k - 1]);
      StepAges(trace[k - 1], es[k - 1]);
      SpentKept(trace[k - 1], trace[k], es[k - 1]);
    }
  }

  lemma SpentKept(s: State, s': State, e: Event)
    requires Inv(s) && Aged(s, s') && Spent(s)
    requires Quiet(s.log, s'.log) || (e.ETimer? && Sends(s, e.t, s'))
    ensures Spent(s')
  {
  }

  // ----- Relaunches -----------------------------------------------------------------------------

  /** A start gets as far as dropping held cancels. */
  ghost predicate ReachesTheDrop(s: State, q: StartRequest) {
    |s.slots| >= TOTAL_SLOTS && q.host != "" && ChooseSlot(s, q).0.Some? && q.app > 0
  }

  /**
   A start by the same browser for the same host disarms its held cancel exactly when the browser has a
   uniqueid: an empty one is armed like any other and dropped by no relaunch.
   */
  lemma RelaunchDisarmsIff(s: State, q: StartRequest, t: Timer)
    requires Inv(s) && |s.slots| >= TOTAL_SLOTS && ReachesTheDrop(s, q)
    requires Armed(s, t) && s.timers[t].uid == Uid(q.device) && s.timers[t].host == q.host
    ensures !Armed(OwnerStart(s, q), t) <==> Uid(q.device) != ""
  {
  }

  /** The relaunch suppresses that cancel for good. */
  lemma RelaunchSuppressesForGood(trace: seq<State>, es: seq<Event>, k: nat, m: nat, q: StartRequest, t: Timer)
    requires Run(trace, es) && k < m < |trace| && es[k] == EStart(q) && ReachesTheDrop(trace[k], q)
    requires Armed(trace[k], t) && trace[k].timers[t].uid == Uid(q.device) && trace[k].timers[t].host == q.host
    requires Uid(q.device) != ""
    ensures SilentFrom(trace[m].log, |trace[k].log|, t)
  {
    RunKeepsInv(trace, es, k);
    assert StepAt(trace, es, k);
    RelaunchDisarmsIff(trace[k], q, t);
    assert t < trace[k].nextTimer;
    OwnerStartAges(trace[k], q);
    hide Armed, OwnerStart, Aged, Inv;
    DroppedTimerNeverSends(trace, es, k + 1, m, t);
  }

  /** A guest's later rung, or codec fallback, suppresses the cancel its earlier rung left held. */
  lemma GuestRelaunchDisarms(s: State, j: JoinRequest, t: Timer)
    requires Inv(s) && OWNER_SLOTS <= j.slot < TOTAL_SLOTS <= |s.slots|
    requires j.host != "" && j.accepted && j.chainOk && j.sameStream && j.slot in s.playerUids && s.playerUids[j.slot] != ""
    requires Armed(s, t) && s.timers[t].uid == s.playerUids[j.slot] && s.timers[t].host == j.host
    ensures !Armed(GuestJoin(s, j), t) && GuestJoin(s, j).playerUids[j.slot] == s.playerUids[j.slot]
  {
  }

  /** One uid has at most one armed timer, whichever hosts its workers were on. */
  lemma OneArmedTimerPerUid(s: State, t: Timer, t': Timer)
    requires Armed(s, t) && Armed(s, t') && s.timers[t].uid == s.timers[t'].uid
    ensures t == t'
  {
  }

  // ----- What disarms ---------------------------------------------------------------------------

  /** Ending a worker, or stopping a player's stream, arms a new timer. */
  ghost predicate EndHolds(s: State, w: Worker, known: bool) {
    && w in s.processes && !s.processes[w].ended && s.processes[w].handled
    && OthersElsewhere(s.slots, s.processes[w].slot, s.processes[w].host)
    && (s.processes[w].guest ==> known && s.processes[w].uid != "")
  }

  ghost predicate StopHolds(s: State, slot: nat, known: bool) {
    && Live(s, slot) && known && PlayerUid(s, slot) != ""
    && OthersElsewhere(s.slots, slot, s.slots[slot].host)
  }

  /** The events that disarm the armed timer @p t. */
  ghost predicate Disarms(s: State, e: Event, t: Timer)
    requires t in s.timers
  {
    var info := s.timers[t];
    match e
    case EStart(q) => ReachesTheDrop(s, q) && info.uid == Uid(q.device) != "" && info.host == q.host
    case EJoin(j) =>
      && j.host != "" && j.accepted && j.chainOk && ChainRelaunch(s, j)
      && info.uid == s.playerUids[j.slot] && info.host == j.host
    case EEnded(w, known) => EndHolds(s, w, known) && info.uid == s.processes[w].uid
    case EStopPlayer(slot, known) => StopHolds(s, slot, known) && info.uid == PlayerUid(s, slot)
    case EQuit(q) => !q.keep && info.uid == q.uid && info.host == q.host
    case ETimer(u, _) => u == t
    case _ => false
  }

  /** The host whose cancel takes the place of the disarmed one. */
  ghost predicate Replaced(s: State, e: Event, t: Timer)
    requires t in s.timers
  {
    match e
    case EEnded(w, known) => EndHolds(s, w, known) && s.processes[w].host == s.timers[t].host
    case EStopPlayer(slot, known) => StopHolds(s, slot, known) && s.slots[slot].host == s.timers[t].host
    case _ => false
  }

  /** Some timer is armed to cancel @p uid's session on @p host. */
  ghost predicate ArmedFor(s: State, uid: string, host: string) {
    exists t :: Armed(s, t) && s.timers[t].uid == uid && s.timers[t].host == host
  }

  /** A new hold disarms exactly its own uid's timers, whatever their host. */
  lemma HoldDisarmsIff(s: State, info: TimerInfo, t: Timer)
    requires EntriesHaveTimers(s.held, s.timers, s.nextTimer) && Armed(s, t)
    ensures t in Hold(s, info).timers && Hold(s, info).timers[t] == s.timers[t]
    ensures !Armed(Hold(s, info), t) <==> s.timers[t].uid == info.uid
    ensures s.timers[t].uid == info.uid ==>
              (ArmedFor(Hold(s, info), info.uid, s.timers[t].host) <==> s.timers[t].host == info.host)
  {
    var h := Hold(s, info);
    assert Armed(h, s.nextTimer) && h.timers[s.nextTimer] == info;
  }

  /** Dropping disarms exactly the timers of that uid and host, and leaves none for them. */
  lemma DropDisarmsIff(s: State, uid: string, host: string, t: Timer)
    requires EntriesHaveTimers(s.held, s.timers, s.nextTimer) && Armed(s, t)
    ensures !Armed(DropHeld(s, uid, host), t) <==> s.timers[t].uid == uid && s.timers[t].host == host
    ensures !ArmedFor(DropHeld(s, uid, host), uid, host)
  {
  }

  /** What is armed depends on the entries and timers alone. */
  lemma SameEntriesSameArmed(s: State, s': State, t: Timer, uid: string, host: string)
    requires s'.held == s.held && s'.timers == s.timers
    ensures Armed(s', t) <==> Armed(s, t)
    ensures ArmedFor(s', uid, host) <==> ArmedFor(s, uid, host)
  {
    if ArmedFor(s, uid, host) {
      var u :| Armed(s, u) && s.timers[u].uid == uid && s.timers[u].host == host;
      assert Armed(s', u);
    }
    if ArmedFor(s', uid, host) {
      var u :| Armed(s', u) && s'.timers[u].uid == uid && s'.timers[u].host == host;
      assert Armed(s, u);
    }
  }

  function EndInfo(p: Process): TimerInfo {
    TimerInfo(p.uid, p.host, p.slot, p.guest)
  }

  lemma GuestEntriesAre(s: State, slot: nat, host: string, uid: string, known: bool)
    ensures SameEntries(GuestCancelSoon(s, slot, host, uid, known),
                        if known && uid != "" && OthersElsewhere(s.slots, slot, host)
                        then Hold(s, TimerInfo(uid, host, slot, true)) else s)
  {
    NoOtherIff(s.slots, slot, host);
    hide AnyOtherLive, OthersElsewhere, Hold;
  }

  lemma HandlerEntriesAre(s: State, w: Worker, p: Process, known: bool)
    ensures SameEntries(EndedHandler(s, w, p, known),
                        if OthersElsewhere(s.slots, p.slot, p.host) && (p.guest ==> known && p.uid != "")
                        then Hold(s, EndInfo(p)) else s)
  {
    NoOtherIff(s.slots, p.slot, p.host);
    hide AnyOtherLive, OthersElsewhere, ClearIfHolding, Hold, GuestCancelSoon;
    GuestEntriesAre(s, p.slot, p.host, p.uid, known);
  }

  lemma EndedEntriesAre(s: State, w: Worker, known: bool)
    ensures SameEntries(WorkerEnded(s, w, known), if EndHolds(s, w, known) then Hold(s, EndInfo(s.processes[w])) else s)
  {
    hide AnyOtherLive, OthersElsewhere, EndedHandler, Hold;
    if w in s.processes {
      var p := s.processes[w];
      var e := s.(processes := s.processes[w := p.(handled := false, ended := true)]);
      SameHold(s, e, EndInfo(p));
      HandlerEntriesAre(e, w, p, known);
    }
  }

  lemma SameHold(s: State, s': State, info: TimerInfo)
    requires SameEntries(s, s') && s'.nextTimer == s.nextTimer
    ensures SameEntries(Hold(s, info), Hold(s', info))
  {
  }

  lemma StopEntriesAre(s: State, slot: nat, known: bool)
    requires OWNER_SLOTS <= slot < TOTAL_SLOTS <= |s.slots|
    ensures SameEntries(StopPlayer(s, slot, known),
                        if StopHolds(s, slot, known)
                        then Hold(s, TimerInfo(PlayerUid(s, slot), s.slots[slot].host, slot, true)) else s)
  {
    if Live(s, slot) {
      OthersStay(s.slots, slot, s.slots[slot].host);
      NoOtherIff(s.slots[slot := FREE], slot, s.slots[slot].host);
    }
    hide AnyOtherLive, OthersElsewhere;
  }

  lemma OthersStay(slots: seq<Slot>, slot: nat, host: string)
    requires slot < |slots|
    ensures OthersElsewhere(slots[slot := FREE], slot, host) <==> OthersElsewhere(slots, slot, host)
  {
    var freed := slots[slot := FREE];
    assert forall i :: 0 <= i < |slots| && i != slot ==> freed[i] == slots[i];
  }

  lemma StartEntriesAre(s: State, q: StartRequest)
    requires |s.slots| >= TOTAL_SLOTS
    ensures SameEntries(OwnerStart(s, q),
                        if ReachesTheDrop(s, q) && Uid(q.device) != "" then DropHeld(s, Uid(q.device), q.host) else s)
  {
    hide ChooseSlot, Uid, OwnerLaunch, Reclaim;
  }

  lemma JoinEntriesAre(s: State, j: JoinRequest)
    requires OWNER_SLOTS <= j.slot < TOTAL_SLOTS <= |s.slots|
    ensures SameEntries(GuestJoin(s, j),
                        if j.host != "" && j.accepted && j.chainOk && ChainRelaunch(s, j)
                        then DropHeld(s, s.playerUids[j.slot], j.host) else s)
  {
  }

  lemma QuitEntriesAre(s: State, q: QuitRequest)
    requires |s.slots| >= TOTAL_SLOTS
    ensures SameEntries(Quit(s, q), if q.keep then s else DropHeld(s, q.uid, q.host))
  {
  }

  lemma AfterDrop(s: State, s': State, drops: bool, uid: string, host: string, t: Timer)
    requires EntriesHaveTimers(s.held, s.timers, s.nextTimer) && Armed(s, t)
    requires SameEntries(s', if drops then DropHeld(s, uid, host) else s)
    ensures !Armed(s', t) <==> drops && s.timers[t].uid == uid && s.timers[t].host == host
    ensures !Armed(s', t) ==> !ArmedFor(s', s.timers[t].uid, s.timers[t].host)
  {
    var info := s.timers[t];
    DropDisarmsIff(s, uid, host, t);
    SameEntriesSameArmed(if drops then DropHeld(s, uid, host) else s, s', t, info.uid, info.host);
    hide EntriesHaveTimers, Armed, ArmedFor, DropHeld;
  }

  lemma AfterHold(s: State, s': State, holds: bool, info: TimerInfo, t: Timer)
    requires EntriesHaveTimers(s.held, s.timers, s.nextTimer) && Armed(s, t)
    requires SameEntries(s', if holds then Hold(s, info) else s)
    ensures !Armed(s', t) <==> holds && s.timers[t].uid == info.uid
    ensures !Armed(s', t) ==> (ArmedFor(s', s.timers[t].uid, s.timers[t].host) <==> s.timers[t].host == info.host)
  {
    HoldDisarmsIff(s, info, t);
    SameEntriesSameArmed(if holds then Hold(s, info) else s, s', t, s.timers[t].uid, s.timers[t].host);
    hide EntriesHaveTimers, Armed, ArmedFor, Hold;
  }

  lemma AfterFiring(s: State, u: Timer, known: bool, t: Timer)
    requires EntriesHaveTimers(s.held, s.timers, s.nextTimer) && Armed(s, t)
    ensures var s' := TimerFired(s, u, known);
            && (!Armed(s', t) <==> u == t)
            && (u == t ==> !ArmedFor(s', s.timers[t].uid, s.timers[t].host))
  {
    hide AnyOtherLive;
  }

  /** An armed timer is disarmed by exactly these events, and by no other step of the machine. */
  lemma DisarmedIff(s: State, e: Event, t: Timer)
    requires Inv(s) && Possible(s, e) && Armed(s, t)
    ensures !Armed(Step(s, e), t) <==> Disarms(s, e, t)
  {
    EntriesAfter(s, e, t);
    hide Step, Disarms, Replaced, ArmedFor;
  }

  /**
   After a disarming event no timer is left to cancel that session, except where the same uniqueid's stream
   ended on that same host and a new timer took over. A relaunch, a quit and the timer's own firing mean it
   so; the end of the same uniqueid's stream on another host does not, and there the first cancel is lost.
   */
  lemma LostIff(s: State, e: Event, t: Timer)
    requires Inv(s) && Possible(s, e) && Armed(s, t) && Disarms(s, e, t)
    ensures !ArmedFor(Step(s, e), s.timers[t].uid, s.timers[t].host) <==> !Replaced(s, e, t)
  {
    EntriesAfter(s, e, t);
    hide Step, Disarms, Replaced, ArmedFor;
  }

  /** What a step leaves of an armed timer and of the session it is for. */
  ghost predicate LeavesArmed(s: State, e: Event, t: Timer, s': State)
    requires t in s.timers
  {
    && (!Armed(s', t) <==> Disarms(s, e, t))
    && (Disarms(s, e, t) ==> (ArmedFor(s', s.timers[t].uid, s.timers[t].host) <==> Replaced(s, e, t)))
  }

  lemma AfterStart(s: State, q: StartRequest, t: Timer)
    requires EntriesHaveTimers(s.held, s.timers, s.nextTimer) && Armed(s, t) && |s.slots| >= TOTAL_SLOTS
    ensures LeavesArmed(s, EStart(q), t, OwnerStart(s, q))
  {
    assert t in s.timers;
    hide Armed, ArmedFor, OwnerStart, ReachesTheDrop, Uid, DropHeld, EntriesHaveTimers;
    StartEntriesAre(s, q);
    AfterDrop(s, OwnerStart(s, q), ReachesTheDrop(s, q) && Uid(q.device) != "", Uid(q.device), q.host, t);
  }

  lemma AfterJoin(s: State, j: JoinRequest, t: Timer)
    requires EntriesHaveTimers(s.held, s.timers, s.nextTimer) && Armed(s, t)
    requires OWNER_SLOTS <= j.slot < TOTAL_SLOTS <= |s.slots|
    ensures LeavesArmed(s, EJoin(j), t, GuestJoin(s, j))
  {
    JoinEntriesAre(s, j);
    var drops := j.host != "" && j.accepted && j.chainOk && ChainRelaunch(s, j);
    AfterDrop(s, GuestJoin(s, j), drops, if drops then s.playerUids[j.slot] else "", j.host, t);
    hide Armed, ArmedFor, GuestJoin, DropHeld, EntriesHaveTimers;
  }

  lemma AfterQuit(s: State, q: QuitRequest, t: Timer)
    requires EntriesHaveTimers(s.held, s.timers, s.nextTimer) && Armed(s, t) && |s.slots| >= TOTAL_SLOTS
    ensures LeavesArmed(s, EQuit(q), t, Quit(s, q))
  {
    hide Armed, ArmedFor, Quit, DropHeld, EntriesHaveTimers;
    QuitEntriesAre(s, q);
    AfterDrop(s, Quit(s, q), !q.keep, q.uid, q.host, t);
  }

  lemma AfterEnd(s: State, w: Worker, known: bool, t: Timer)
    requires EntriesHaveTimers(s.held, s.timers, s.nextTimer) && Armed(s, t)
    ensures LeavesArmed(s, EEnded(w, known), t, WorkerEnded(s, w, known))
  {
    EndedEntriesAre(s, w, known);
    AfterHold(s, WorkerEnded(s, w, known), EndHolds(s, w, known),
              if EndHolds(s, w, known) then EndInfo(s.processes[w]) else s.timers[t], t);
    hide Armed, ArmedFor, WorkerEnded, Hold, EntriesHaveTimers, AnyOtherLive;
  }

  lemma AfterStop(s: State, slot: nat, known: bool, t: Timer)
    requires EntriesHaveTimers(s.held, s.timers, s.nextTimer) && Armed(s, t)
    requires OWNER_SLOTS <= slot < TOTAL_SLOTS <= |s.slots|
    ensures LeavesArmed(s, EStopPlayer(slot, known), t, StopPlayer(s, slot, known))
  {
    StopEntriesAre(s, slot, known);
    AfterHold(s, StopPlayer(s, slot, known), StopHolds(s, slot, known),
              TimerInfo(PlayerUid(s, slot), s.slots[slot].host, slot, true), t);
    hide Armed, ArmedFor, StopPlayer, Hold, EntriesHaveTimers, StopHolds, PlayerUid;
  }

  lemma AfterOther(s: State, e: Event, t: Timer)
    requires Possible(s, e) && Armed(s, t) && Elsewhere(e)
    ensures LeavesArmed(s, e, t, Step(s, e))
  {
    ElsewhereKeepsEntries(s, e);
    SameEntriesSameArmed(s, Step(s, e), t, s.timers[t].uid, s.timers[t].host);
    hide ArmedFor, Step, Possible;
  }

  lemma EntriesAfter(s: State, e: Event, t: Timer)
    requires EntriesHaveTimers(s.held, s.timers, s.nextTimer) && Possible(s, e) && Armed(s, t)
    ensures LeavesArmed(s, e, t, Step(s, e))
  {
    hide LeavesArmed, Armed, OwnerStart, GuestJoin, WorkerEnded, StopPlayer, Quit, TimerFired, PreviousGone, DisplayAnswer,
         RouterAnswer, Responded, WorkerDestroyed, StopSession, PlayerMustDisconnect, EntriesHaveTimers;
    match e
    case EStart(q) => AfterStart(s, q, t);
    case EJoin(j) => AfterJoin(s, j, t);
    case EEnded(w, known) => AfterEnd(s, w, known, t);
    case EStopPlayer(slot, known) => AfterStop(s, slot, known, t);
    case EQuit(q) => AfterQuit(s, q, t);
    case ETimer(u, known) => AfterTimer(s, u, known, t);
    case _ => AfterOther(s, e, t);
  }

  lemma AfterTimer(s: State, u: Timer, known: bool, t: Timer)
    requires EntriesHaveTimers(s.held, s.timers, s.nextTimer) && Armed(s, t)
    ensures LeavesArmed(s, ETimer(u, known), t, TimerFired(s, u, known))
  {
    AfterFiring(s, u, known, t);
    hide Armed, ArmedFor, TimerFired, EntriesHaveTimers;
  }

  /**
   The end of a worker, owner's or guest's: the entry is keyed by uid alone, so a new hold replaces the armed
   timer of its uid whatever that one's host, and the first host's cancel is lost exactly when the hosts differ.
   */
  lemma EndDisarmsIff(s: State, w: Worker, known: bool, t: Timer)
    requires Inv(s) && Armed(s, t)
    ensures var s' := WorkerEnded(s, w, known);
            && (!Armed(s', t) <==> EndHolds(s, w, known) && s.timers[t].uid == s.processes[w].uid)
            && (!Armed(s', t) ==> (ArmedFor(s', s.timers[t].uid, s.timers[t].host)
                                   <==> s.processes[w].host == s.timers[t].host))
            && (EndHolds(s, w, known) ==> Armed(s', s.nextTimer) && s'.timers[s.nextTimer] == EndInfo(s.processes[w]))
  {
    EndedEntriesAre(s, w, known);
    if EndHolds(s, w, known) {
      AfterHold(s, WorkerEnded(s, w, known), true, EndInfo(s.processes[w]), t);
    } else {
      SameEntriesSameArmed(s, WorkerEnded(s, w, known), t, s.timers[t].uid, s.timers[t].host);
    }
    hide WorkerEnded, EndHolds, SlotsHoldTheirWorkers, LaunchesInOrder, WorkersNumbered, NamedByDevice, ArmedFor;
  }

  /** The entries after a new hold: one timer more, and the uid's entry is its own. */
  ghost predicate Holding(s: State, s': State, info: TimerInfo) {
    && s'.held == s.held[info.uid := Held(s.nextTimer, info.host)]
    && s'.timers == s.timers[s.nextTimer := info] && s'.nextTimer == s.nextTimer + 1
  }

  lemma HoldIs(s: State, s': State, info: TimerInfo)
    requires SameEntries(Hold(s, info), s') && s'.nextTimer == s.nextTimer + 1
    ensures Holding(s, s', info)
  {
  }

  lemma NoHoldNoTimer(s: State, w: Worker, known: bool)
    ensures WorkerEnded(s, w, known).nextTimer == if EndHolds(s, w, known) then s.nextTimer + 1 else s.nextTimer
  {
    hide AnyOtherLive, OthersElsewhere, ClearIfHolding, EndedHandler;
    if w in s.processes {
      var p := s.processes[w];
      NoOtherIff(s.slots, p.slot, p.host);
      HandlerTimes(s.(processes := s.processes[w := p.(handled := false, ended := true)]), w, p, known);
    }
  }

  lemma HandlerTimes(s: State, w: Worker, p: Process, known: bool)
    ensures EndedHandler(s, w, p, known).nextTimer
            == if AnyOtherLive(s.slots, p.slot, p.host) || (p.guest && (!known || p.uid == "")) then s.nextTimer else s.nextTimer + 1
  {
    hide AnyOtherLive, ClearIfHolding, DropHeld;
  }

  /**
   A handled end, read off the slots of a sound state: it holds a cancel for its own uid and host exactly when
   no other live slot streams that host, and, for a guest's, the host is known and the uid not empty. Nothing
   else is ever held or dropped by an end.
   */
  lemma EndHoldsExactly(s: State, w: Worker, known: bool)
    requires Inv(s) && w in s.processes && s.processes[w].handled && !s.processes[w].ended
    ensures var p, s' := s.processes[w], WorkerEnded(s, w, known);
            var busy := exists i :: 0 <= i < |s.slots| && i != p.slot && s.slots[i].worker.Some? && s.slots[i].host == p.host;
            if !busy && (p.guest ==> known && p.uid != "") then Holding(s, s', TimerInfo(p.uid, p.host, p.slot, p.guest))
            else SameEntries(s, s') && s'.nextTimer == s.nextTimer
  {
    LiveSlotsHaveHosts(s);
    EndedEntriesAre(s, w, known);
    NoHoldNoTimer(s, w, known);
    hide Inv, WorkerEnded, Hold;
    if EndHolds(s, w, known) { HoldIs(s, WorkerEnded(s, w, known), EndInfo(s.processes[w])); }
  }

  /** Stopping a player's live stream holds a cancel for the uid the slot's player had, under the same terms. */
  lemma StopHoldsExactly(s: State, slot: nat, known: bool)
    requires Inv(s) && OWNER_SLOTS <= slot < TOTAL_SLOTS <= |s.slots| && s.slots[slot].worker.Some?
    ensures var host, uid, s' := s.slots[slot].host, PlayerUid(s, slot), StopPlayer(s, slot, known);
            var busy := exists i :: 0 <= i < |s.slots| && i != slot && s.slots[i].worker.Some? && s.slots[i].host == host;
            if !busy && known && uid != "" then Holding(s, s', TimerInfo(uid, host, slot, true))
            else SameEntries(s, s') && s'.nextTimer == s.nextTimer
  {
    LiveSlotsHaveHosts(s);
    StopEntriesAre(s, slot, known);
    OthersStay(s.slots, slot, s.slots[slot].host);
    NoOtherIff(s.slots[slot := FREE], slot, s.slots[slot].host);
    assert StopPlayer(s, slot, known).nextTimer == if StopHolds(s, slot, known) then s.nextTimer + 1 else s.nextTimer by {
      hide Inv, AnyOtherLive, OthersElsewhere;
    }
    hide Inv, StopPlayer, Hold, AnyOtherLive;
    if StopHolds(s, slot, known) {
      HoldIs(s, StopPlayer(s, slot, known), TimerInfo(PlayerUid(s, slot), s.slots[slot].host, slot, true));
    }
  }

  // ----- Two runs that lose a cancel ------------------------------------------------------------

  /** A plain launch in the primary slot. */
  predicate PlainStart(q: StartRequest) {
    q.host != "" && q.app > 0 && q.chainOk && !q.standby && !q.display && q.backend.cap >= 1
  }

  ghost predicate AllFree(s: State) {
    |s.slots| == TOTAL_SLOTS && (forall i :: 0 <= i < TOTAL_SLOTS ==> s.slots[i] == FREE)
    && forall w :: w in s.processes ==> w < s.nextWorker
  }

  lemma StartOnFreePool(s: State, q: StartRequest)
    requires AllFree(s) && PlainStart(q)
    ensures ChooseSlot(s, q) == (Some(0), s)
    ensures var d := if Uid(q.device) != "" then DropHeld(s, Uid(q.device), q.host) else s;
            Cleared(s, q) == d
    ensures OwnerLaunch(s, q).slot == 0 && OwnerLaunch(s, q).stage == AwaitRouter && OwnerLaunch(s, q).uid == Uid(q.device)
    ensures !OwnerLaunch(s, q).guest && OwnerLaunch(s, q).host == q.host
  {
    NobodyViews(s, q, 0);
    ViewersOnFreePool(s, q);
    hide Viewers, Uid;
    assert s.slots[0 := FREE] == s.slots && s.slots[1 := FREE] == s.slots;
    assert Detach(s, 0) == s && Detach(s, 1) == s;
    hide Detach;
    assert TakeOver(s, q, 2) == s;
    assert TakeOver(s, q, 1) == s;
    assert TakeOver(s, q, 0) == s;
  }

  lemma NobodyViews(s: State, q: StartRequest, i: nat)
    requires AllFree(s) && i <= |s.slots|
    ensures forall v :: v in Viewers(s, q, i) <==> v == Asking(q)
  {
    forall v ensures v in Viewers(s, q, i) <==> v == Asking(q) {
      ViewersAre(s, q, i, v);
      hide Viewers;
    }
  }

  lemma ViewersOnFreePool(s: State, q: StartRequest)
    requires forall v :: v in Viewers(s, q, 0) <==> v == Asking(q)
    ensures |Viewers(s, q, 0)| == 1
  {
    hide Viewers;
    assert Viewers(s, q, 0) == {Asking(q)};
  }

  /** A start, its router's answer, and the worker's end. */
  function Session(s: State, q: StartRequest): State
    requires |s.slots| >= TOTAL_SLOTS
  {
    WorkerEnded(RouterAnswer(OwnerStart(s, q), s.nextWorker, true), s.nextWorker, true)
  }

  /** The start queues its launch for the router, on the state the drop left. */
  lemma StartQueues(s: State, q: StartRequest)
    requires AllFree(s) && PlainStart(q)
    ensures ChooseSlot(s, q).0.Some?
    ensures var a, w := OwnerStart(s, q), s.nextWorker;
            && a == Enqueue(if Uid(q.device) != "" then DropHeld(s, Uid(q.device), q.host) else s, OwnerLaunch(s, q))
            && w in a.launches && a.launches[w] == OwnerLaunch(s, q).(gen := Generation(s, 0) + 1)
            && a.slots == s.slots && a.processes == s.processes && a.nextWorker == w + 1
            && Generation(a, 0) == Generation(s, 0) + 1
  {
    StartOnFreePool(s, q);
    hide ChooseSlot, OwnerLaunch, Uid, DropHeld, Cleared;
  }

  lemma RouterInstalls(a: State, w: Worker)
    requires w in a.launches && a.launches[w].stage == AwaitRouter && Newest(a, a.launches[w]) && a.launches[w].slot < |a.slots|
    ensures RouterAnswer(a, w, true) == Install(a, w, a.launches[w])
  {
    hide Install;
  }

  function SessionEvents(q: StartRequest, w: Worker): seq<Event> {
    [EStart(q), ERouter(w, true), EEnded(w, true)]
  }

  lemma SessionHolds(s: State, q: StartRequest)
    requires AllFree(s) && PlainStart(q)
    ensures var t, uid := Session(s, q), Uid(q.device);
            var d := if uid != "" then DropHeld(s, uid, q.host) else s;
            && AllFree(t) && t.log == s.log
            && SameEntries(Hold(d, TimerInfo(uid, q.host, 0, false)), t) && t.nextTimer == s.nextTimer + 1
  {
    StartOnFreePool(s, q);
    StartQueues(s, q);
    hide ChooseSlot, Cleared, OwnerLaunch, OwnerStart, Uid, RouterAnswer, WorkerEnded, Hold;
    var w, uid := s.nextWorker, Uid(q.device);
    var d := if uid != "" then DropHeld(s, uid, q.host) else s;
    var a := OwnerStart(s, q);
    RouterInstalls(a, w);
    var b := RouterAnswer(a, w, true);
    InstalledEnds(a, b, w, q.host, uid);
    hide DropHeld;
    SameHold(d, b, TimerInfo(uid, q.host, 0, false));
  }

  lemma InstalledEnds(a: State, b: State, w: Worker, host: string, uid: string)
    requires |a.slots| == TOTAL_SLOTS && (forall i :: 0 <= i < TOTAL_SLOTS ==> a.slots[i] == FREE)
    requires w in a.launches && a.launches[w].slot == 0 && !a.launches[w].guest && a.launches[w].host == host && a.launches[w].uid == uid
    requires b == Install(a, w, a.launches[w]) && a.nextWorker == w + 1 && forall v :: v in a.processes ==> v < w
    ensures var t := WorkerEnded(b, w, true);
            AllFree(t) && t.log == a.log && SameEntries(Hold(b, TimerInfo(uid, host, 0, false)), t) && t.nextTimer == b.nextTimer + 1
  {
    var p := b.processes[w];
    assert p.handled && !p.ended && !p.guest && p.slot == 0 && p.host == host && p.uid == uid;
    assert forall i :: 1 <= i < TOTAL_SLOTS ==> b.slots[i] == FREE;
    assert OthersElsewhere(b.slots, 0, host);
    EndedEntriesAre(b, w, true);
    assert EndHolds(b, w, true) && EndInfo(p) == TimerInfo(uid, host, 0, false);
    hide AnyOtherLive, OthersElsewhere;
  }

  lemma SessionIsARun(s: State, q: StartRequest, es: seq<Event>)
    requires AllFree(s) && PlainStart(q)
    ensures After(s, SessionEvents(q, s.nextWorker) + es) == After(Session(s, q), es)
    ensures Session(s, q).nextWorker == s.nextWorker + 1
  {
    StartQueues(s, q);
    assert |s.slots| == TOTAL_SLOTS;
    hide AllFree, PlainStart, OwnerStart, RouterAnswer, WorkerEnded, After, OwnerLaunch, Uid, ChooseSlot, DropHeld, Enqueue;
    var a, w := OwnerStart(s, q), s.nextWorker;
    PoolKept(a, w);
    SameCount(a, w);
    EventsOfASession(s, q, w, es);
  }

  lemma EventsOfASession(s: State, q: StartRequest, w: Worker, es: seq<Event>)
    requires TOTAL_SLOTS <= |s.slots| && TOTAL_SLOTS <= |OwnerStart(s, q).slots|
    requires TOTAL_SLOTS <= |RouterAnswer(OwnerStart(s, q), w, true).slots|
    ensures After(s, SessionEvents(q, w) + es) == After(WorkerEnded(RouterAnswer(OwnerStart(s, q), w, true), w, true), es)
  {
    hide OwnerStart, RouterAnswer, WorkerEnded, After;
    AfterThree(s, EStart(q), ERouter(w, true), EEnded(w, true), es);
  }

  lemma PoolKept(s: State, w: Worker)
    ensures |RouterAnswer(s, w, true).slots| == |s.slots|
  {
  }

  lemma SameCount(s: State, w: Worker)
    ensures WorkerEnded(RouterAnswer(s, w, true), w, true).nextWorker == s.nextWorker
  {
    hide RouterAnswer, EndedHandler;
  }

  /** An empty uniqueid is held, and the relaunch it waits for leaves it held: a run of four events. */
  lemma EmptyIdStaysHeld(max: nat, q: StartRequest)
    requires PlainStart(q) && Uid(q.device) == ""
    ensures var t := After(Initial(max), SessionEvents(q, 0) + [EStart(q)]);
            Armed(t, 0) && t.timers[0] == TimerInfo("", q.host, 0, false)
  {
    var s := Initial(max);
    var t := Session(s, q);
    FreshPoolIsFree(max);
    hide Session, SessionEvents, AllFree, PlainStart, Initial, After, Uid, OwnerStart;
    SessionHolds(s, q);
    SessionIsARun(s, q, [EStart(q)]);
    assert Armed(t, 0) && t.timers[0] == TimerInfo("", q.host, 0, false);
    FreeIsBig(t);
    StartEntriesAre(t, q);
    OneEvent(t, EStart(q));
  }

  lemma FreeIsBig(s: State)
    requires AllFree(s)
    ensures |s.slots| == TOTAL_SLOTS
  {
  }

  lemma OneEvent(s: State, e: Event)
    requires Possible(s, e)
    ensures After(s, [e]) == Step(s, e)
  {
    assert [e][1..] == [];
    hide Step, Possible;
  }

  /**
   A cancel lost across hosts: the same uniqueid streams one host, then the other, and both end. Nothing
   streams any more, nothing was sent, and no timer is left for the first host's session.
   */
  lemma CancelLostAcrossHosts(max: nat, q: StartRequest, r: StartRequest)
    requires PlainStart(q) && PlainStart(r) && q.host != r.host && Uid(q.device) == Uid(r.device) != ""
    ensures var es := SessionEvents(q, 0) + SessionEvents(r, 1);
            var t := After(Initial(max), es);
            && AllFree(t) && t.log == []
            && ArmedFor(t, Uid(q.device), r.host) && !ArmedFor(t, Uid(q.device), q.host)
  {
    FreshPoolIsFree(max);
    hide Session, SessionEvents, AllFree, PlainStart, Initial, After, Uid, ArmedFor;
    TwoSessionsRun(Initial(max), q, r);
    TwoSessionsHold(Initial(max), q, r);
  }

  lemma SessionAlone(s: State, q: StartRequest)
    requires AllFree(s) && PlainStart(q)
    ensures |s.slots| >= TOTAL_SLOTS && After(s, SessionEvents(q, s.nextWorker)) == Session(s, q)
  {
    FreeIsBig(s);
    SessionIsARun(s, q, []);
    NothingAfter(Session(s, q));
    hide *;
    assert SessionEvents(q, s.nextWorker) + [] == SessionEvents(q, s.nextWorker);
  }

  lemma SessionFrees(s: State, q: StartRequest)
    requires AllFree(s) && PlainStart(q)
    ensures |s.slots| >= TOTAL_SLOTS && AllFree(Session(s, q))
  {
    FreeIsBig(s);
    hide *;
    SessionHolds(s, q);
  }

  lemma TwoSessionsRun(s: State, q: StartRequest, r: StartRequest)
    requires AllFree(s) && PlainStart(q) && PlainStart(r) && s.nextWorker == 0
    ensures |s.slots| >= TOTAL_SLOTS && |Session(s, q).slots| >= TOTAL_SLOTS
    ensures After(s, SessionEvents(q, 0) + SessionEvents(r, 1)) == Session(Session(s, q), r)
  {
    hide *;
    FreeIsBig(s);
    SessionFrees(s, q);
    var t := Session(s, q);
    FreeIsBig(t);
    var es := SessionEvents(r, 1);
    SessionIsARun(s, q, es);
    assert t.nextWorker == 1;
    SessionAlone(t, r);
  }

  lemma TwoSessionsHold(s: State, q: StartRequest, r: StartRequest)
    requires AllFree(s) && PlainStart(q) && PlainStart(r) && q.host != r.host && Uid(q.device) == Uid(r.device) != ""
    requires s.held == map[] && s.timers == map[] && s.nextTimer == 0
    ensures |s.slots| >= TOTAL_SLOTS && |Session(s, q).slots| >= TOTAL_SLOTS
    ensures var u := Session(Session(s, q), r);
            AllFree(u) && u.log == s.log && ArmedFor(u, Uid(q.device), r.host) && !ArmedFor(u, Uid(q.device), q.host)
  {
    FreeIsBig(s);
    hide Session, AllFree, PlainStart, Uid, Hold, DropHeld, ArmedFor;
    SessionHolds(s, q);
    FreeIsBig(Session(s, q));
    SessionHolds(Session(s, q), r);
    OneAfterTheOther(s, Session(s, q), Session(Session(s, q), r), Uid(q.device), q.host, r.host);
  }

  lemma FreshPoolIsFree(max: nat)
    ensures var s := Initial(max);
            AllFree(s) && s.nextWorker == 0 && s.nextTimer == 0 && s.held == map[] && s.timers == map[] && s.log == []
  {
  }

  lemma NothingAfter(s: State)
    ensures After(s, []) == s
  {
  }

  lemma OneAfterTheOther(s: State, t: State, u: State, uid: string, host: string, other: string)
    requires s.held == map[] && s.timers == map[] && s.nextTimer == 0 && host != other && t.nextTimer == 1
    requires SameEntries(Hold(DropHeld(s, uid, host), TimerInfo(uid, host, 0, false)), t)
    requires SameEntries(Hold(DropHeld(t, uid, other), TimerInfo(uid, other, 0, false)), u)
    ensures ArmedFor(u, uid, other) && !ArmedFor(u, uid, host)
  {
    assert t.held == map[uid := Held(0, host)];
    assert u.held == map[uid := Held(1, other)];
    assert Armed(u, 1) && u.timers[1] == TimerInfo(uid, other, 0, false);
  }
}
