/**
 What each request does to the stream slots, told by the slots, the queue, the processes and the log
 themselves, and what of a request is still true of its worker later in a run.
 */
module SlotRequests {
  import opened Base
  import opened SlotState
  import opened SlotSafety
  import opened Text

  // ----- Which slot -----------------------------------------------------------------------------

  /** Slot @p i carries nobody's stream, or one this fresh launch may take over. */
  ghost predicate OursToTake(s: State, q: StartRequest, i: nat)
    requires i < |s.slots|
  {
    s.slots[i].worker.Some? ==> MayReclaim(s, q, i)
  }

  /** The first slot that carries the request's id. */
  ghost predicate FirstWithUid(s: State, q: StartRequest, k: nat) {
    && q.device != "" && k < |s.slots| && s.slots[k].uid == q.device
    && forall i :: 0 <= i < k ==> s.slots[i].uid != q.device
  }

  /** Nothing is in the slot, nor being set up in it. */
  predicate Vacant(sl: Slot) {
    sl.worker.None? && sl.uid == "" && sl.token == ""
  }

  /** The lowest vacant slot above the reserved ones, or the next one the pool may still open. */
  ghost predicate LowestVacant(s: State, k: nat) {
    && TOTAL_SLOTS <= k <= |s.slots|
    && (forall i :: TOTAL_SLOTS <= i < k ==> !Vacant(s.slots[i]))
    && if k < |s.slots| then Vacant(s.slots[k]) else |s.slots| < s.maxSlots
  }

  lemma StandbySlotIs(s: State, q: StartRequest)
    requires TOTAL_SLOTS <= |s.slots| && q.standby
    ensures ChooseSlot(s, q) == (Some(if q.sessionSlot >= 1 then 1 else 0), s)
  {
  }

  /**
   Where a fresh launch under the cap goes: the primary slot if that is free or its own to take, else the slot
   this browser already streams this host, and this app where apps count, from, else the lowest vacant one
   above the reserved slots. These cases are all there are.
   */
  lemma FreshSlotIs(s: State, q: StartRequest, k: nat)
    requires Inv(s) && !q.standby && |Viewers(s, q, 0)| <= q.backend.cap
    ensures OursToTake(s, q, 0) ==> ChooseSlot(s, q) == (Some(0), s)
    ensures !OursToTake(s, q, 0) && FirstWithUid(s, q, k) && s.slots[k].host == q.host && OursToTake(s, q, k)
            ==> ChooseSlot(s, q) == (Some(k), s)
    ensures !OursToTake(s, q, 0) && LowestVacant(s, k)
            && (forall m: nat :: FirstWithUid(s, q, m) ==> s.slots[m].host != q.host || !OursToTake(s, q, m))
            ==> ChooseSlot(s, q) == (Some(k), if k < |s.slots| then s else s.(slots := s.slots + [FREE]))
  {
    hide Viewers;
    assert Spared(s, q, 0) <==> !OursToTake(s, q, 0) by {
      if Live(s, 0) { SpareIffNotReclaimable(s, q, 0); }
    }
    MineIs(s, q, k);
    AcquiredIs(s, TOTAL_SLOTS, k);
    hide Inv, Spared, Mine, Acquire, FirstWithUid, OursToTake;
  }

  lemma MineIs(s: State, q: StartRequest, k: nat)
    requires Inv(s)
    ensures FirstWithUid(s, q, k) ==>
              Mine(s, q) == if s.slots[k].host == q.host && OursToTake(s, q, k) then Some(k) else None
        ensures Mine(s, q).Some? ==>
              var m := Mine(s, q).value; FirstWithUid(s, q, m) && s.slots[m].host == q.host && OursToTake(s, q, m)
  {
    FirstUidIs(s, q, 0);
  }

  lemma {:induction false} FirstUidIs(s: State, q: StartRequest, i: nat)
    requires i <= |s.slots|
    ensures var m := IndexOfUid(s, q.device, i);
            && (m.Some? ==> i <= m.value < |s.slots| && s.slots[m.value].uid == q.device != ""
                            && forall k :: i <= k < m.value ==> s.slots[k].uid != q.device)
            && (m.None? ==> q.device == "" || forall k :: i <= k < |s.slots| ==> s.slots[k].uid != q.device)
    decreases |s.slots| - i
  {
    if i < |s.slots| { FirstUidIs(s, q, i + 1); }
  }

  lemma AcquiredIs(s: State, i: nat, k: nat)
    requires TOTAL_SLOTS == i <= |s.slots|
    ensures LowestVacant(s, k) ==> Acquire(s, i) == (Some(k), if k < |s.slots| then s else s.(slots := s.slots + [FREE]))
  {
    if LowestVacant(s, k) { AcquiredFrom(s, i, k); }
  }

  lemma {:induction false} AcquiredFrom(s: State, i: nat, k: nat)
    requires i <= k <= |s.slots| && (forall m :: i <= m < k ==> !Vacant(s.slots[m]))
    requires if k < |s.slots| then Vacant(s.slots[k]) else |s.slots| < s.maxSlots
    ensures Acquire(s, i) == (Some(k), if k < |s.slots| then s else s.(slots := s.slots + [FREE]))
    decreases k - i
  {
    if i < k { AcquiredFrom(s, i + 1, k); }
  }

  // ----- Which id -------------------------------------------------------------------------------

  /** The id sent to the host, character by character: the first 32 hex digits of the stored id, upper-cased. */
  lemma UidTakes(s: string, c: char)
    ensures Uid("") == ""
    ensures Uid(s + [c]) == if |Uid(s)| >= 32 then Uid(s)
                            else if '0' <= c <= '9' || 'A' <= c <= 'F' then Uid(s) + [c]
                            else if 'a' <= c <= 'f' then Uid(s) + [(c as int - 32) as char]
                            else Uid(s)
  {
    SanitizeOneMore(s, "", c);
  }

  lemma {:induction false} SanitizeOneMore(s: string, acc: string, c: char)
    ensures var u := Sanitize(s, acc);
            Sanitize(s + [c], acc) == if |u| >= 32 || !HexDigit(UpperChar(c)) then u else u + [UpperChar(c)]
    decreases |s|
  {
    if s == "" {
      assert s + [c] == [c] && [c][1..] == "";
    } else {
      assert (s + [c])[1..] == s[1..] + [c] && (s + [c])[0] == s[0];
      if |acc| < 32 { SanitizeOneMore(s[1..], if HexDigit(UpperChar(s[0])) then acc + [UpperChar(s[0])] else acc, c); }
    }
  }

  // ----- What a launch waits for ----------------------------------------------------------------

  /** A start is admitted exactly with a host, a slot, an app and a transport left; else it queues nothing. */
  lemma AdmittedIff(s: State, q: StartRequest)
    requires TOTAL_SLOTS <= |s.slots|
    ensures OwnerStart(s, q).nextWorker == s.nextWorker + 1
       <==> q.host != "" && ChooseSlot(s, q).0.Some? && q.app > 0 && q.chainOk
    ensures OwnerStart(s, q).nextWorker != s.nextWorker + 1 ==>
              OwnerStart(s, q).launches == s.launches && OwnerStart(s, q).generation == s.generation
  {
    hide ChooseSlot, Reclaim, Uid;
  }

  /** The stage of a launch behind @p previous. */
  ghost predicate WaitsFor(l: Launch, previous: Option<Worker>) {
    if previous.Some? then l.stage.AwaitPrevious? && l.stage.previous == previous.value
    else if l.display then l.stage.AwaitDisplay? else l.stage.AwaitRouter?
  }

  /** The worker in a slot, if the pool has that slot at all. */
  function InSlot(s: State, i: nat): Option<Worker> {
    if i < |s.slots| then s.slots[i].worker else None
  }

  /**
   An admitted start queues one launch, which carries what was asked for and waits for exactly the worker
   that was in its slot; with none there, for the display it asked for or for the router.
   */
  lemma AdmittedLaunchIs(s: State, q: StartRequest)
    requires Inv(s) && q.host != "" && ChooseSlot(s, q).0.Some? && q.app > 0 && q.chainOk
    ensures var s' := OwnerStart(s, q);
            && s'.launches.Keys == s.launches.Keys + {s.nextWorker}
            && (forall v :: v in s.launches ==> s'.launches[v] == s.launches[v])
            && var l := s'.launches[s.nextWorker];
               && l == Launch(ChooseSlot(s, q).0.value, Generation(s, l.slot) + 1, false, q.standby, q.device, Uid(q.device),
                              q.host, q.token, q.app, q.display, l.stage)
               && WaitsFor(l, InSlot(s, l.slot))
               && s'.generation == s.generation[l.slot := Generation(s, l.slot) + 1]
  {
    assert s.nextWorker !in s.launches;
    hide Inv, ChooseSlot, Cleared, OwnerLaunch, Uid, WaitsFor;
    ClearedKeepsTheQueue(s, q);
    LaunchWaits(s, q);
    LaunchIs(s, q);
    WaitsAlike(OwnerLaunch(s, q), OwnerStart(s, q).launches[s.nextWorker], InSlot(s, ChooseSlot(s, q).0.value));
  }

  lemma LaunchIs(s: State, q: StartRequest)
    requires TOTAL_SLOTS <= |s.slots| && ChooseSlot(s, q).0.Some?
    ensures var l := OwnerLaunch(s, q);
            l == Launch(ChooseSlot(s, q).0.value, 0, false, q.standby, q.device, Uid(q.device), q.host, q.token, q.app, q.display, l.stage)
  {
    hide ChooseSlot, Uid;
  }

  lemma WaitsAlike(l: Launch, l': Launch, previous: Option<Worker>)
    requires WaitsFor(l, previous) && l'.stage == l.stage && l'.display == l.display
    ensures WaitsFor(l', previous)
  {
  }

  lemma ClearedKeepsTheQueue(s: State, q: StartRequest)
    requires TOTAL_SLOTS <= |s.slots| && ChooseSlot(s, q).0.Some?
    ensures var r := Cleared(s, q);
            r.launches == s.launches && r.generation == s.generation && r.nextWorker == s.nextWorker
  {
    hide ChooseSlot, Reclaim;
  }

  lemma LaunchWaits(s: State, q: StartRequest)
    requires TOTAL_SLOTS <= |s.slots| && ChooseSlot(s, q).0.Some?
    ensures WaitsFor(OwnerLaunch(s, q), InSlot(s, ChooseSlot(s, q).0.value))
  {
    hide ChooseSlot, Uid;
    var (choice, c) := ChooseSlot(s, q);
    assert choice.value < |s.slots| ==> c.slots[choice.value] == s.slots[choice.value];
    assert choice.value >= |s.slots| ==> c.slots[choice.value] == FREE;
  }

  /** A join's launch waits for the worker in its slot, or else for one that slot is still retiring. */
  lemma JoinedLaunchIs(s: State, j: JoinRequest)
    requires Inv(s) && OWNER_SLOTS <= j.slot < TOTAL_SLOTS <= |s.slots| && j.host != "" && j.accepted && j.chainOk
    ensures var s' := GuestJoin(s, j);
            var retiring := if j.slot in s.retiring && s.retiring[j.slot] in s.processes then Some(s.retiring[j.slot]) else None;
            var kept := j.sameStream && PlayerUid(s, j.slot) != "";
            && s'.launches.Keys == s.launches.Keys + {s.nextWorker}
            && (forall v :: v in s.launches ==> s'.launches[v] == s.launches[v])
            && var l := s'.launches[s.nextWorker];
               && l == Launch(j.slot, Generation(s, j.slot) + 1, true, false, "",
                              if kept then PlayerUid(s, j.slot) else j.freshUid, j.host, "", j.app, false, l.stage)
               && WaitsFor(l, if s.slots[j.slot].worker.Some? then s.slots[j.slot].worker else retiring)
               && s'.generation == s.generation[l.slot := Generation(s, l.slot) + 1]
               && s'.slots == s.slots[j.slot := FREE] && s'.playerUids == s.playerUids[j.slot := l.uid]
  {
    hide Inv, DropHeld, Detach, WaitsFor, FirstStage;
    NextIsNew(s);
    JoinedStage(s, j);
  }

  lemma NextIsNew(s: State)
    requires Inv(s)
    ensures s.nextWorker !in s.launches
  {
  }

  lemma JoinedStage(s: State, j: JoinRequest)
    requires OWNER_SLOTS <= j.slot < TOTAL_SLOTS <= |s.slots| && j.host != "" && j.accepted && j.chainOk
    ensures var s' := GuestJoin(s, j);
            var retiring := if j.slot in s.retiring && s.retiring[j.slot] in s.processes then Some(s.retiring[j.slot]) else None;
            && s.nextWorker in s'.launches
            && WaitsFor(s'.launches[s.nextWorker], if s.slots[j.slot].worker.Some? then s.slots[j.slot].worker else retiring)
  {
    hide DropHeld, Detach, ChainRelaunch;
  }

  /** A join right after the player's stream was stopped waits for the stopped worker. */
  lemma JoinWaitsForTheStopped(s: State, slot: nat, known: bool, j: JoinRequest)
    requires Inv(s) && OWNER_SLOTS <= slot < TOTAL_SLOTS <= |s.slots| && s.slots[slot].worker.Some?
    requires j.slot == slot && j.host != "" && j.accepted && j.chainOk
    ensures var t := StopPlayer(s, slot, known);
            && t.slots[slot].worker.None?
            && s.nextWorker in GuestJoin(t, j).launches
            && WaitsFor(GuestJoin(t, j).launches[s.nextWorker], s.slots[slot].worker)
  {
    var t := StopPlayer(s, slot, known);
    StopPlayerKeeps(s, slot, known);
    assert Holds(s.slots[slot], slot, s.processes);
    StoppedSlot(s, slot, known);
    hide Inv, StopPlayer, GuestJoin;
    JoinedLaunchIs(t, j);
  }

  lemma StoppedSlot(s: State, slot: nat, known: bool)
    requires OWNER_SLOTS <= slot < TOTAL_SLOTS <= |s.slots| && s.slots[slot].worker.Some?
    ensures var t := StopPlayer(s, slot, known);
            && t.slots == s.slots[slot := FREE] && t.processes.Keys == s.processes.Keys && t.nextWorker == s.nextWorker
            && slot in t.retiring && t.retiring[slot] == s.slots[slot].worker.value
  {
    hide Hold, AnyOtherLive;
  }

  /**
   What an answer does to the launch that waits for it: an overtaken or refused one is forgotten; the newest one
   goes on from the display to the router, and from the router into its slot.
   */
  lemma AnswerMovesTheLaunch(s: State, w: Worker, ok: bool)
    requires Inv(s) && w in s.launches
    ensures var l := s.launches[w];
            var newest := l.slot in s.generation && s.generation[l.slot] == l.gen;
            && (l.stage == AwaitDisplay ==>
                  DisplayAnswer(s, w, ok).launches
                  == if ok && newest then s.launches[w := l.(stage := AwaitRouter)] else s.launches - {w})
            && (l.stage == AwaitRouter ==>
                  && RouterAnswer(s, w, ok).launches == s.launches - {w}
                  && RouterAnswer(s, w, ok).processes.Keys == s.processes.Keys + (if ok && newest then {w} else {})
                  && (ok && newest ==>
                        && RouterAnswer(s, w, ok).slots[l.slot].worker == Some(w)
                        && RouterAnswer(s, w, ok).processes[w]
                           == Process(l.slot, l.guest, l.standby, l.device, l.uid, l.host, true, false)))
  {
  }

  // ----- One after the other, over runs ---------------------------------------------------------

  /** @p w may not run while @p p does: it is still queued behind p, if it is queued at all. */
  ghost predicate Behind(s: State, w: Worker, p: Worker) {
    && w != p && w < s.nextWorker && p < s.nextWorker && p !in s.launches
    && (p in s.processes ==> w !in s.processes && (w in s.launches ==> s.launches[w].stage == AwaitPrevious(p)))
  }

  /** What the queue and the processes of a step come from. */
  ghost predicate Moves(s: State, s': State) {
    && s.nextWorker <= s'.nextWorker
    && (forall v :: v in s'.launches ==>
          v == s.nextWorker < s'.nextWorker
          || (v in s.launches && s'.launches[v] == s.launches[v].(stage := s'.launches[v].stage)
              && (s.launches[v].stage.AwaitPrevious? && s.launches[v].stage.previous in s.processes
                  ==> s'.launches[v].stage == s.launches[v].stage)))
    && (forall v :: v in s'.processes ==> v in s.processes || (v in s.launches && s.launches[v].stage == AwaitRouter))
  }

  lemma QueuedMoves(s: State, s': State)
    requires s'.launches == s.launches || (s.nextWorker in s'.launches && s'.launches == s.launches[s.nextWorker := s'.launches[s.nextWorker]])
    requires s'.launches == s.launches || s'.nextWorker > s.nextWorker
    requires s'.processes.Keys <= s.processes.Keys && s.nextWorker <= s'.nextWorker
    ensures Moves(s, s')
  {
  }

  /** Between two queues at most the one numbered next is new. */
  ghost predicate OneQueued(s: State, s': State) {
    || (s'.launches == s.launches && s'.nextWorker == s.nextWorker)
    || (s'.nextWorker > s.nextWorker && s.nextWorker in s'.launches
        && s'.launches == s.launches[s.nextWorker := s'.launches[s.nextWorker]])
  }

  lemma StartQueues(s: State, q: StartRequest)
    requires TOTAL_SLOTS <= |s.slots|
    ensures OneQueued(s, OwnerStart(s, q))
    ensures OwnerStart(s, q).processes
            == if q.host != "" && ChooseSlot(s, q).0.Some?
               then Reclaim(ChooseSlot(s, q).1, q, ChooseSlot(s, q).0.value).processes else s.processes
  {
    hide ChooseSlot, Uid, Reclaim, DropHeld;
  }

  lemma StartMoves(s: State, q: StartRequest)
    requires Inv(s)
    ensures Moves(s, OwnerStart(s, q))
  {
    assert TOTAL_SLOTS <= |s.slots|;
    StartQueues(s, q);
    if ChooseSlot(s, q).0.Some? {
      PoolGrowthFrees(s, q);
      ReclaimFrees(ChooseSlot(s, q).1, q, ChooseSlot(s, q).0.value);
    }
    hide ChooseSlot, Inv, Reclaim, Moves, OwnerStart, SlotsHoldTheirWorkers, SameStream;
    QueuedMoves(s, OwnerStart(s, q));
  }

  lemma JoinMoves(s: State, j: JoinRequest)
    requires Inv(s) && OWNER_SLOTS <= j.slot < TOTAL_SLOTS <= |s.slots|
    ensures Moves(s, GuestJoin(s, j))
  {
    hide Inv, DropHeld, Moves;
    QueuedMoves(s, GuestJoin(s, j));
  }

  lemma QuitMoves(s: State, q: QuitRequest)
    requires Inv(s) && TOTAL_SLOTS <= |s.slots|
    ensures Moves(s, Quit(s, q))
  {
    hide Inv, QuitSlots, DetachLive, DropHeld, Moves, SlotsHoldTheirWorkers, SameStream;
    DetachLiveFrees(s, OWNER_SLOTS, TOTAL_SLOTS);
    QuitSlotsFrees(if q.keep then s else EndPlayers(s), q, 0);
    QueuedMoves(s, Quit(s, q));
  }

  lemma StopMoves(s: State, host: string, order: seq<string>)
    requires Inv(s) && TOTAL_SLOTS <= |s.slots|
    ensures Moves(s, StopSession(s, host, order))
  {
    hide Inv, DetachLive, Moves, SlotsHoldTheirWorkers, SameStream;
    DetachLiveFrees(s, OWNER_SLOTS, TOTAL_SLOTS);
    QueuedMoves(s, StopSession(s, host, order));
  }

  lemma RestagedMoves(s: State, s': State, w: Worker, stage: Stage)
    requires w in s.launches && s' == s.(launches := s.launches[w := s.launches[w].(stage := stage)])
    requires s.launches[w].stage.AwaitPrevious? ==> s.launches[w].stage.previous !in s.processes
    ensures Moves(s, s')
  {
  }

  lemma SpawnedMoves(s: State, w: Worker)
    requires w in s.launches && s.launches[w].stage == AwaitRouter && s.launches[w].slot < |s.slots|
    ensures Moves(s, Forget(s, w)) && Moves(s, Install(s, w, s.launches[w]))
  {
  }

  lemma ForgottenMoves(s: State, w: Worker)
    ensures Moves(s, s) && Moves(s, Forget(s, w))
  {
  }

  lemma AnswersMove(s: State, w: Worker, ok: bool)
    ensures Moves(s, PreviousGone(s, w)) && Moves(s, DisplayAnswer(s, w, ok)) && Moves(s, RouterAnswer(s, w, ok))
  {
    hide Moves, Install, Newest, Forget;
    ForgottenMoves(s, w);
    if w in s.launches {
      if s.launches[w].stage == AwaitRouter && s.launches[w].slot < |s.slots| { SpawnedMoves(s, w); }
      if s.launches[w].stage == AwaitDisplay {
        RestagedMoves(s, s.(launches := s.launches[w := s.launches[w].(stage := AwaitRouter)]), w, AwaitRouter);
      }
      if s.launches[w].stage.AwaitPrevious? && s.launches[w].stage.previous !in s.processes {
        RestagedMoves(s, PreviousGone(s, w), w, if s.launches[w].display then AwaitDisplay else AwaitRouter);
      }
    }
  }

  lemma EndMoves(s: State, w: Worker, known: bool)
    ensures Moves(s, WorkerEnded(s, w, known))
  {
    hide EndedHandler, Moves;
    QueuedMoves(s, WorkerEnded(s, w, known));
  }

  lemma GoneMoves(s: State, w: Worker, ok: bool)
    ensures Moves(s, WorkerDestroyed(s, w)) && Moves(s, Responded(s, w, ok))
  {
    hide Moves;
    QueuedMoves(s, WorkerDestroyed(s, w));
    QueuedMoves(s, Responded(s, w, ok));
  }

  lemma TimerMoves(s: State, t: Timer, known: bool)
    ensures Moves(s, TimerFired(s, t, known))
  {
    hide AnyOtherLive, Moves, Armed;
    QueuedMoves(s, TimerFired(s, t, known));
  }

  lemma {:induction false} PlayerStopMoves(s: State, slot: nat, known: bool)
    requires OWNER_SLOTS <= slot < TOTAL_SLOTS <= |s.slots|
    ensures Moves(s, StopPlayer(s, slot, known))
  {
    hide Moves, GuestCancelSoon, Detach, PlayerUid;
    if s.slots[slot].worker.Some? { DetachKeepsTheQueue(s, slot); }
    QueuedMoves(s, StopPlayer(s, slot, known));
  }

  lemma {:induction false} DetachKeepsTheQueue(s: State, i: nat)
    requires i < |s.slots|
    ensures var r := Detach(s, i);
            r.launches == s.launches && r.nextWorker == s.nextWorker && r.processes.Keys == s.processes.Keys
  {
  }

  lemma {:induction false} PlayerLeaveMoves(s: State, slot: nat)
    requires OWNER_SLOTS <= slot < TOTAL_SLOTS <= |s.slots|
    ensures Moves(s, PlayerMustDisconnect(s, slot))
  {
    hide Moves;
    QueuedMoves(s, PlayerMustDisconnect(s, slot));
  }

  lemma StepMoves(s: State, e: Event)
    requires Inv(s) && Possible(s, e)
    ensures Moves(s, Step(s, e))
  {
    hide Inv, OwnerStart, GuestJoin, PreviousGone, DisplayAnswer, RouterAnswer, Responded, WorkerEnded, WorkerDestroyed,
         TimerFired, Quit, StopSession, StopPlayer, PlayerMustDisconnect, Moves;
    match e
    case EStart(q) => StartMoves(s, q);
    case EJoin(j) => JoinMoves(s, j);
    case EPreviousGone(w) => AnswersMove(s, w, true);
    case EDisplay(w, ok) => AnswersMove(s, w, ok);
    case ERouter(w, spawned) => AnswersMove(s, w, spawned);
    case EResponded(w, ok) => GoneMoves(s, w, ok);
    case EEnded(w, known) => EndMoves(s, w, known);
    case EDestroyed(w) => GoneMoves(s, w, true);
    case EQuit(q) => QuitMoves(s, q);
    case EStopSession(host, order) => StopMoves(s, host, order);
    case ETimer(t, known) => TimerMoves(s, t, known);
    case EStopPlayer(slot, known) => PlayerStopMoves(s, slot, known);
    case EMustDisconnect(slot) => PlayerLeaveMoves(s, slot);
  }

  lemma MovesKeepBehind(s: State, s': State, w: Worker, p: Worker)
    requires Moves(s, s') && Behind(s, w, p)
    ensures Behind(s', w, p)
  {
  }

  lemma {:induction false} StaysBehind(trace: seq<State>, es: seq<Event>, k: nat, m: nat, w: Worker, p: Worker)
    requires Run(trace, es) && k <= m < |trace| && Behind(trace[k], w, p)
    ensures Behind(trace[m], w, p)
    decreases m - k
  {
    hide Inv, Step, Possible, Initial, StepAt, Behind;
    if k < m {
      assert k < |es|;
      hide Run;
      RunsStep(trace, es, k);
      StepMoves(trace[k], es[k]);
      MovesKeepBehind(trace[k], trace[k + 1], w, p);
      StaysBehind(trace, es, k + 1, m, w, p);
    }
  }

  /** The worker the request at @p k found in the way of its launch's slot, running or still retiring. */
  ghost predicate InTheWay(s: State, l: Launch, p: Worker) {
    || InSlot(s, l.slot) == Some(p)
    || (l.guest && InSlot(s, l.slot).None? && l.slot in s.retiring && s.retiring[l.slot] == p && p in s.processes)
  }

  /**
   One process per slot: over any run, a launch's own worker never runs while the worker it found in its slot
   still does, whatever else happens in between. So that worker's ports are free when its successor starts.
   */
  lemma SuccessorWaitsForItsPredecessor(trace: seq<State>, es: seq<Event>, k: nat, m: nat, p: Worker)
    requires Run(trace, es) && k < m < |trace| && (es[k].EStart? || es[k].EJoin?)
    requires trace[k].nextWorker in trace[k + 1].launches
    requires InTheWay(trace[k], trace[k + 1].launches[trace[k].nextWorker], p)
    ensures trace[k].nextWorker in trace[m].processes ==> p !in trace[m].processes
  {
    hide Inv, Step, Possible, Initial, StepAt, Behind, InTheWay;
    assert k < |es|;
    hide Run;
    RunsStep(trace, es, k);
    QueuedBehind(trace[k], es[k], p);
    StaysBehind(trace, es, k + 1, m, trace[k].nextWorker, p);
    BehindNeverTogether(trace[m], trace[k].nextWorker, p);
  }

  lemma BehindNeverTogether(s: State, w: Worker, p: Worker)
    requires Behind(s, w, p)
    ensures w in s.processes ==> p !in s.processes
  {
  }

  lemma QueuedBehind(s: State, e: Event, p: Worker)
    requires Inv(s) && Possible(s, e) && (e.EStart? || e.EJoin?)
    requires s.nextWorker in Step(s, e).launches && InTheWay(s, Step(s, e).launches[s.nextWorker], p)
    ensures Behind(Step(s, e), s.nextWorker, p)
  {
    assert s.nextWorker !in s.launches && s.nextWorker !in s.processes;
    StepMoves(s, e);
    StepKeepsInv(s, e);
    assert p in s.processes by { InTheWayRuns(s, Step(s, e).launches[s.nextWorker], p); }
    if e.EStart? {
      AdmittedIff(s, e.start);
      hide ChooseSlot, OwnerStart, Uid;
      AdmittedLaunchIs(s, e.start);
    } else {
      RefusedJoinQueuesNothing(s, e.join);
      hide GuestJoin;
      JoinedLaunchIs(s, e.join);
    }
  }

  lemma InTheWayRuns(s: State, l: Launch, p: Worker)
    requires Inv(s) && InTheWay(s, l, p)
    ensures p in s.processes
  {
    if InSlot(s, l.slot) == Some(p) { assert Holds(s.slots[l.slot], l.slot, s.processes); }
  }

  lemma RefusedJoinQueuesNothing(s: State, j: JoinRequest)
    requires OWNER_SLOTS <= j.slot < TOTAL_SLOTS <= |s.slots|
    ensures j.host == "" || !j.accepted || !j.chainOk ==> GuestJoin(s, j).launches == s.launches
  {
  }

  // ----- What the slot then holds ---------------------------------------------------------------

  /** While @p w waits it is queued with this request's values, and once it streams its slot has them. */
  ghost predicate Carries(s: State, w: Worker, uid: string, q: StartRequest) {
    && w < s.nextWorker
    && (w in s.launches ==> var l := s.launches[w];
                            !l.guest && l.uid == uid && l.host == q.host && l.token == q.token && l.app == q.app)
    && forall i :: 0 <= i < |s.slots| && s.slots[i].worker == Some(w) ==> s.slots[i] == Slot(Some(w), uid, q.host, q.token, q.app)
  }

  lemma StepKeepsCarries(s: State, e: Event, w: Worker, uid: string, q: StartRequest)
    requires Inv(s) && Possible(s, e) && Carries(s, w, uid, q)
    ensures Carries(Step(s, e), w, uid, q)
  {
    StepMoves(s, e);
    if e.ERouter? {
      hide Inv;
    } else {
      hide Inv, Step;
      StepOnlyLoses(s, e);
    }
  }

  lemma {:induction false} KeepsCarrying(trace: seq<State>, es: seq<Event>, k: nat, m: nat, w: Worker, uid: string, q: StartRequest)
    requires Run(trace, es) && k <= m < |trace| && Carries(trace[k], w, uid, q)
    ensures Carries(trace[m], w, uid, q)
    decreases m - k
  {
    hide Inv, Step, Possible, Initial, StepAt, Carries;
    if k < m {
      assert k < |es|;
      hide Run;
      RunsStep(trace, es, k);
      StepKeepsCarries(trace[k], es[k], w, uid, q);
      KeepsCarrying(trace, es, k + 1, m, w, uid, q);
    }
  }

  /** Over any run: as long as a start's worker has a slot, the slot holds that start's id, host, session and app. */
  lemma SlotHoldsItsRequest(trace: seq<State>, es: seq<Event>, k: nat, m: nat, i: nat)
    requires Run(trace, es) && k < m < |trace| && es[k].EStart? && trace[k].nextWorker in trace[k + 1].launches
    requires i < |trace[m].slots| && trace[m].slots[i].worker == Some(trace[k].nextWorker)
    ensures var q := es[k].start;
            trace[m].slots[i] == Slot(Some(trace[k].nextWorker), Uid(q.device), q.host, q.token, q.app)
  {
    hide Inv, Step, Possible, StepAt, Carries, Uid;
    RunsStep(trace, es, k);
    var w, q := trace[k].nextWorker, es[k].start;
    StartStep(trace[k], q);
    QueuedCarrying(trace[k], q);
    KeepsCarrying(trace, es, k + 1, m, w, Uid(q.device), q);
    CarriedInSlot(trace[m], w, Uid(q.device), q, i);
  }

  lemma CarriedInSlot(s: State, w: Worker, uid: string, q: StartRequest, i: nat)
    requires Carries(s, w, uid, q) && i < |s.slots| && s.slots[i].worker == Some(w)
    ensures s.slots[i] == Slot(Some(w), uid, q.host, q.token, q.app)
  {
  }

  lemma StartStep(s: State, q: StartRequest)
    requires Possible(s, EStart(q))
    ensures TOTAL_SLOTS <= |s.slots| && Step(s, EStart(q)) == OwnerStart(s, q)
  {
    hide OwnerStart;
  }

  lemma QueuedCarrying(s: State, q: StartRequest)
    requires Inv(s) && s.nextWorker in OwnerStart(s, q).launches
    ensures Carries(OwnerStart(s, q), s.nextWorker, Uid(q.device), q)
  {
    assert s.nextWorker !in s.launches && s.nextWorker !in s.processes;
    OwnerStartKeeps(s, q);
    StartsOnlyLose(s, q);
    AdmittedIff(s, q);
    hide ChooseSlot, OwnerStart, Uid;
    AdmittedLaunchIs(s, q);
    assert forall i :: 0 <= i < |s.slots| && s.slots[i].worker.Some? ==> Holds(s.slots[i], i, s.processes);
  }

  // ----- What is said to the host ---------------------------------------------------------------

  /** A worker that streams makes its uid live; a refused standby lets go of its slot, if it still has it. */
  lemma AnswerIsTaken(s: State, w: Worker, ok: bool, i: nat)
    requires Inv(s) && w in s.processes && i < |s.slots|
    ensures var r := Responded(s, w, ok);
            && r.liveUids == (if ok then s.liveUids + {s.processes[w].uid} else s.liveUids)
            && (r.slots[i].worker == if s.slots[i].worker == Some(w) && !ok && s.processes[w].standby then None else s.slots[i].worker)
  {
    if s.slots[i].worker == Some(w) { assert Holds(s.slots[i], i, s.processes); }
  }

  /** A quit that keeps nothing sends its one cancel at once and drops the held one of the same uid and host. */
  lemma QuitSays(s: State, q: QuitRequest)
    requires TOTAL_SLOTS <= |s.slots|
    ensures var r := Quit(s, q);
            var held := q.uid in s.held && s.held[q.uid].host == q.host;
            && r.log == (if q.keep then s.log else s.log + [Cancel(q.uid, q.host)])
            && r.held == (if held && !q.keep then s.held - {q.uid} else s.held)
            && r.liveUids == (if q.keep then s.liveUids else s.liveUids - {q.uid})
  {
    hide QuitSlots, DetachLive;
  }

  /** The escape hatch names every live uid once, then sweeps without a name, and no uid is live any more. */
  lemma StopSessionSays(s: State, host: string, order: seq<string>)
    requires Possible(s, EStopSession(host, order))
    ensures var r, n := Step(s, EStopSession(host, order)), |s.log|;
            && r.liveUids == {} && r.held == s.held
            && s.log <= r.log && |r.log| > n && r.log[|r.log| - 1] == Cancel("", host)
            && (forall u :: u in s.liveUids ==> exists k :: n <= k < |r.log| - 1 && r.log[k] == Cancel(u, host))
            && (forall k :: n <= k < |r.log| - 1 ==> r.log[k].Cancel? && r.log[k].host == host && r.log[k].uid in s.liveUids)
            && (forall k, m :: n <= k < m < |r.log| - 1 ==> r.log[k] != r.log[m])
  {
    hide DetachLive;
    NamesThenSweep(s.log, order, host);
  }

  lemma NamesThenSweep(log: seq<Output>, order: seq<string>, host: string)
    requires forall i, j :: 0 <= i < j < |order| ==> order[i] != order[j]
    ensures var r, n := log + seq(|order|, k requires 0 <= k < |order| => Cancel(order[k], host)) + [Cancel("", host)], |log|;
            && log <= r && |r| == n + |order| + 1 && r[|r| - 1] == Cancel("", host)
            && (forall u :: u in order ==> exists k :: n <= k < |r| - 1 && r[k] == Cancel(u, host))
            && (forall k :: n <= k < |r| - 1 ==> r[k].Cancel? && r[k].host == host && r[k].uid in order)
            && (forall k, m :: n <= k < m < |r| - 1 ==> r[k] != r[m])
  {
    var r, n := log + seq(|order|, k requires 0 <= k < |order| => Cancel(order[k], host)) + [Cancel("", host)], |log|;
    forall u | u in order ensures exists k :: n <= k < |r| - 1 && r[k] == Cancel(u, host) {
      var j :| 0 <= j < |order| && order[j] == u;
      assert r[n + j] == Cancel(u, host);
    }
    forall k | n <= k < |r| - 1 ensures r[k] == Cancel(order[k - n], host) && order[k - n] in order {
      assert r[n + (k - n)] == Cancel(order[k - n], host);
    }
  }
}
