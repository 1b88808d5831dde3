/**
 The congestion ladder of frontend/js/app.js: `_onStreamCongested` steps a stream's session-only overrides
 down, `_maybeUpgradeQuality` steps them back, and a codec-fallback relaunch folds the current overrides
 into the settings the ladder measures against. Bitrates are whole kbps and Math.round(x) is floor(x + 1/2).
 */
module QualityLadder {
  import opened Base

  /** What a launch streams with; a value that is not positive means "unset". @p transport: one asked for by name. */
  datatype Settings = Settings(bitrate: int, fps: int, height: int, enhancement: bool, transport: Option<string>)

  const NATIVE_MEDIA := "webrtc-media-udp"

  /** The session-only overrides; @p media is transport_mode forced to the native media transport. */
  datatype Overrides = Overrides(bitrate: Option<int>, fps: Option<int>, height: Option<int>, media: bool, enhancement: bool)

  const NO_OVERRIDES := Overrides(None, None, None, false, false)

  /** @p user is the launch's own profile; @p base is what the ladder reads. They differ only after a fold. */
  datatype Ladder = Ladder(user: Settings, base: Settings, o: Overrides, level: nat, enhancementForced: bool,
                           originalHeight: Option<int>, lastSignal: real, lastDegrade: real, lastUpgrade: real, stableMs: int)

  /** @p liveHeight: the live frame's height, 0 when unknown; @p onMedia: the live rung is a media one. */
  datatype Env = Env(now: real, busy: bool, liveHeight: int, onMedia: bool, auto: (int, int) -> int)

  datatype Rung = Resolution | MediaTransport | FrameRate | Bitrate | Restart

  const FLOOR_KBPS := 2000
  const DEFAULT_KBPS := 20000
  const DEGRADE_GAP := 15000.0
  const FLAP_WINDOW := 60000.0
  const RUNGS := {720, 1080, 1440, 2160}
  const STABLE_MS := 75000
  const STABLE_CAP := 600000

  function Launch(user: Settings): Ladder {
    Ladder(user, user, NO_OVERRIDES, 0, false, None, 0.0, 0.0, 0.0, STABLE_MS)
  }

  // ----- Effective values -----------------------------------------------------------------------

  function KbpsOf(s: Settings): int {
    if s.bitrate > 0 then s.bitrate else DEFAULT_KBPS
  }

  function FpsOf(s: Settings): int {
    if s.fps > 0 then s.fps else 60
  }

  function CurBitrate(l: Ladder): int {
    if l.o.bitrate.Some? && l.o.bitrate.value > 0 then l.o.bitrate.value
    else if l.o.bitrate.Some? then DEFAULT_KBPS else KbpsOf(l.base)
  }

  function CurFps(l: Ladder): int {
    if l.o.fps.Some? && l.o.fps.value > 0 then l.o.fps.value
    else if l.o.fps.Some? then 60 else FpsOf(l.base)
  }

  function LiveHeight(live: int): int {
    if live > 0 then live else 1080
  }

  /** `_effectiveStreamHeight` */
  function CurHeight(l: Ladder, live: int): int {
    var h := GetOr(l.o.height, l.base.height);
    if h > 0 then h else LiveHeight(live)
  }

  // ----- Down -----------------------------------------------------------------------------------

  /** Math.round(0.5 * b) on the first rung of a descent, Math.round(0.7 * b) after. */
  function Cut(b: int, level: nat): int {
    if level == 1 then (b + 1) / 2 else (7 * b + 5) / 10
  }

  /** The first of 2160, 1440, 1080, 720 below @p h. */
  function NextLower(h: int): (r: int)
    requires h > 720
    ensures r < h && r in RUNGS
    ensures forall q :: q in RUNGS && q < h ==> q <= r
  {
    if 2160 < h then 2160 else if 1440 < h then 1440 else if 1080 < h then 1080 else 720
  }

  function Backoff(l: Ladder, now: real): int {
    if l.lastUpgrade != 0.0 && now - l.lastUpgrade < FLAP_WINDOW then Min(STABLE_CAP, l.stableMs * 2) else l.stableMs
  }

  predicate DegradeAccepted(l: Ladder, env: Env) {
    !env.busy && (l.lastDegrade == 0.0 || env.now - l.lastDegrade >= DEGRADE_GAP)
  }

  /** Which knob this congestion turns. */
  function RungFor(l: Ladder, env: Env): Rung {
    if CurHeight(l, env.liveHeight) > 720 then Resolution
    else if !env.onMedia && !l.o.media then MediaTransport
    else if l.o.fps.None? && CurFps(l) > 60 then FrameRate
    else if Max(FLOOR_KBPS, Cut(CurBitrate(l), l.level + 1)) < CurBitrate(l) then Bitrate
    else Restart
  }

  function NewBitrate(l: Ladder, env: Env): int {
    var cut := Max(FLOOR_KBPS, Cut(CurBitrate(l), l.level + 1));
    if RungFor(l, env).Resolution?
    then Max(FLOOR_KBPS, Min(cut, env.auto(NextLower(CurHeight(l, env.liveHeight)), CurFps(l))))
    else cut
  }

  function ForcesEnhancement(l: Ladder, env: Env): bool {
    RungFor(l, env).Resolution? && !(l.o.enhancement || l.base.enhancement) && !env.onMedia && !l.o.media
  }

  function Lowered(l: Ladder, env: Env): Overrides {
    var rung := RungFor(l, env);
    var nb := NewBitrate(l, env);
    Overrides(
      if nb < CurBitrate(l) then Some(nb) else l.o.bitrate,
      if rung.FrameRate? then Some(60) else l.o.fps,
      if rung.Resolution? then Some(NextLower(CurHeight(l, env.liveHeight))) else l.o.height,
      l.o.media || rung.MediaTransport?,
      l.o.enhancement || ForcesEnhancement(l, env))
  }

  function Congested(l: Ladder, env: Env): Ladder {
    if !DegradeAccepted(l, env) then l
    else l.(o := Lowered(l, env),
            level := l.level + 1,
            enhancementForced := l.enhancementForced || ForcesEnhancement(l, env),
            originalHeight := if RungFor(l, env).Resolution? && l.originalHeight.None?
                              then Some(CurHeight(l, env.liveHeight)) else l.originalHeight,
            lastDegrade := env.now,
            stableMs := Backoff(l, env.now))
  }

  // ----- Up -------------------------------------------------------------------------------------

  /** Math.round(b / 0.7) */
  function Grow(b: int): int {
    (20 * b + 7) / 14
  }

  /** The first of 1080, 1440, 2160 above @p h. */
  function NextHigher(h: int): (r: Option<int>)
    ensures r.Some? <==> h < 2160
    ensures r.Some? ==> h < r.value && r.value in {1080, 1440, 2160}
  {
    if h < 1080 then Some(1080) else if h < 1440 then Some(1440) else if h < 2160 then Some(2160) else None
  }

  function TargetHeight(l: Ladder): int {
    if l.base.height > 0 then l.base.height
    else if l.originalHeight.Some? && l.originalHeight.value != 0 then l.originalHeight.value else 1080
  }

  function QuietSince(l: Ladder): real {
    var a := if l.lastSignal > l.lastDegrade then l.lastSignal else l.lastDegrade;
    if a > l.lastUpgrade then a else l.lastUpgrade
  }

  predicate UpgradeAccepted(l: Ladder, env: Env) {
    && !env.busy && l.o != NO_OVERRIDES
    && QuietSince(l) != 0.0 && env.now - QuietSince(l) >= l.stableMs as real
  }

  /** One step back toward the base settings. The last case is the source's "leftover overrides". */
  function Raised(l: Ladder): Ladder {
    if l.o.fps.Some? then l.(o := l.o.(fps := None))
    else if l.o.media then l.(o := l.o.(media := false))
    else if l.o.height.Some? then
      var next := NextHigher(l.o.height.value);
      if next.None? || next.value >= TargetHeight(l) then
        if l.enhancementForced then l.(o := l.o.(height := None, enhancement := false), enhancementForced := false)
        else l.(o := l.o.(height := None))
      else l.(o := l.o.(height := next))
    else if l.o.bitrate.Some? then
      if Grow(l.o.bitrate.value) >= KbpsOf(l.base) then l.(o := l.o.(bitrate := None))
      else l.(o := l.o.(bitrate := Some(Grow(l.o.bitrate.value))))
    else l.(o := NO_OVERRIDES)
  }

  predicate LeftoverOnly(o: Overrides) {
    o != NO_OVERRIDES && o.fps.None? && !o.media && o.height.None? && o.bitrate.None?
  }

  function Upgraded(l: Ladder, env: Env): Ladder {
    if !UpgradeAccepted(l, env) then l
    else
      var r := Raised(l);
      r.(lastUpgrade := env.now, level := if r.o == NO_OVERRIDES then 0 else r.level)
  }

  // ----- The rest of a session ------------------------------------------------------------------

  /** A single congestion hint, or a new view mounted. */
  function Signal(l: Ladder, now: real): Ladder {
    l.(lastSignal := now)
  }

  /**
   A codec-fallback relaunch: the stored settings with the overrides merged in become the base. @p proven is
   the rung the stream had come down to, when that was not the first; it is asked for by name from then on.
   */
  function Fold(l: Ladder, proven: Option<string>): Ladder {
    l.(base := Settings(GetOr(l.o.bitrate, l.user.bitrate), GetOr(l.o.fps, l.user.fps), GetOr(l.o.height, l.user.height),
                        l.o.enhancement || l.user.enhancement,
                        if l.user.transport.Some? then l.user.transport
                        else if l.o.media then Some(NATIVE_MEDIA) else proven))
  }

  datatype Event = ECongested(env: Env) | EUpgrade(env: Env) | ESignal(now: real) | EFold(proven: Option<string>)

  function Step(l: Ladder, e: Event): Ladder {
    match e
    case ECongested(env) => Congested(l, env)
    case EUpgrade(env) => Upgraded(l, env)
    case ESignal(now) => Signal(l, now)
    case EFold(proven) => Fold(l, proven)
  }

  function Run(l: Ladder, es: seq<Event>): Ladder
    decreases |es|
  {
    if es == [] then l else Run(Step(l, es[0]), es[1..])
  }

  /** The user named a height, or every congestion of the session saw the host's frame at @p hostHeight. */
  ghost predicate HeightSettled(user: Settings, es: seq<Event>, hostHeight: int) {
    user.height > 0 || forall e :: e in es && e.ECongested? ==> LiveHeight(e.env.liveHeight) == hostHeight
  }

  predicate SettledAt(user: Settings, live: int, hostHeight: int) {
    user.height > 0 || LiveHeight(live) == hostHeight
  }

  // ----- The invariant of every session ---------------------------------------------------------

  predicate BitrateInRange(l: Ladder) {
    && KbpsOf(l.base) <= KbpsOf(l.user)
    && (l.o.bitrate.Some? ==> FLOOR_KBPS <= l.o.bitrate.value <= KbpsOf(l.base) && l.o.bitrate.value < KbpsOf(l.user))
  }

  predicate FpsInRange(l: Ladder) {
    && FpsOf(l.base) <= FpsOf(l.user)
    && (l.o.fps.Some? ==> l.o.fps.value == 60 <= FpsOf(l.base) && 60 < FpsOf(l.user))
  }

  /** The height a session may not exceed: the user's own, or the host's where the user asked for that. */
  function HeightCeiling(l: Ladder, hostHeight: int): int {
    if l.user.height > 0 then l.user.height else hostHeight
  }

  predicate HeightInRange(l: Ladder, hostHeight: int) {
    && (l.base.height > 0 ==> l.base.height <= HeightCeiling(l, hostHeight))
    && (l.user.height > 0 ==> l.base.height > 0)
    && (l.o.height.Some? ==> && l.o.height.value in RUNGS && l.o.height.value < HeightCeiling(l, hostHeight)
                             && (l.base.height > 0 ==> l.o.height.value <= l.base.height)
                             && l.originalHeight.Some?)
    && (l.user.height <= 0 && l.originalHeight.Some? ==> l.originalHeight.value == hostHeight)
    && (l.user.height <= 0 && l.base.height > 0 ==> l.originalHeight.Some?)
    && (l.originalHeight.None? ==> l.base.height == l.user.height)
  }

  predicate UpscalerNeedsHeight(l: Ladder) {
    && (l.o.enhancement <==> l.enhancementForced)
    && (l.o.enhancement ==> l.o.height.Some?)
  }

  predicate Patient(l: Ladder) {
    l.stableMs in {75000, 150000, 300000, 600000}
  }

  predicate Inv(l: Ladder, hostHeight: int) {
    && hostHeight > 0
    && BitrateInRange(l) && FpsInRange(l) && HeightInRange(l, hostHeight) && UpscalerNeedsHeight(l) && Patient(l)
  }

  lemma LaunchInv(user: Settings, hostHeight: int)
    requires hostHeight > 0
    ensures Inv(Launch(user), hostHeight)
  {
  }

  lemma StepKeepsInv(l: Ladder, e: Event, hostHeight: int)
    requires Inv(l, hostHeight) && HeightSettled(l.user, [e], hostHeight)
    ensures Inv(Step(l, e), hostHeight)
  {
    hide Inv, Congested, Upgraded, Fold;
    assert e in [e];
    match e
    case ECongested(env) => CongestedKeepsInv(l, env, hostHeight);
    case EUpgrade(env) => UpgradedKeepsInv(l, env, hostHeight);
    case ESignal(now) => SignalKeepsInv(l, now, hostHeight);
    case EFold(proven) => FoldKeepsInv(l, proven, hostHeight);
  }

  lemma UpgradedKeepsInv(l: Ladder, env: Env, hostHeight: int)
    requires Inv(l, hostHeight)
    ensures Inv(Upgraded(l, env), hostHeight)
  {
    if l.o != NO_OVERRIDES { UpgradeProgresses(l, hostHeight); }
    hide Raised;
  }

  lemma SignalKeepsInv(l: Ladder, now: real, hostHeight: int)
    requires Inv(l, hostHeight)
    ensures Inv(Signal(l, now), hostHeight)
  {
  }

  lemma FoldKeepsInv(l: Ladder, proven: Option<string>, hostHeight: int)
    requires Inv(l, hostHeight)
    ensures Inv(Fold(l, proven), hostHeight)
  {
  }

  lemma CongestedKeepsInv(l: Ladder, env: Env, hostHeight: int)
    requires Inv(l, hostHeight) && SettledAt(l.user, env.liveHeight, hostHeight)
    ensures Inv(Congested(l, env), hostHeight)
  {
  }

  lemma {:induction false} RunKeepsInv(l: Ladder, es: seq<Event>, hostHeight: int)
    requires Inv(l, hostHeight) && HeightSettled(l.user, es, hostHeight)
    ensures Inv(Run(l, es), hostHeight)
    decreases |es|
  {
    if es != [] {
      assert es[0] in es;
      StepKeepsInv(l, es[0], hostHeight);
      RunKeepsUser(l, es[..1]);
      assert Run(l, es[..1]) == Step(l, es[0]);
      RunKeepsInv(Step(l, es[0]), es[1..], hostHeight);
    }
  }

  // ----- Recovery -------------------------------------------------------------------------------

  function HeightRank(h: int): nat {
    if h <= 720 then 4 else if h <= 1080 then 3 else if h <= 1440 then 2 else 1
  }

  /** Upgrade steps still needed, at most. */
  function RecoveryLeft(l: Ladder): nat {
    (if l.o.fps.Some? then 1 else 0) + (if l.o.media then 1 else 0)
    + (if l.o.height.Some? then HeightRank(l.o.height.value) else 0)
    + (if l.o.bitrate.Some? then 1 + Max(0, KbpsOf(l.base) - l.o.bitrate.value) else 0)
  }

  /** Every accepted upgrade makes progress; it is the floor of 2 Mbps that makes the bitrate grow. */
  lemma UpgradeProgresses(l: Ladder, hostHeight: int)
    requires Inv(l, hostHeight) && l.o != NO_OVERRIDES
    ensures !LeftoverOnly(l.o)
    ensures Inv(Raised(l), hostHeight) && RecoveryLeft(Raised(l)) < RecoveryLeft(l)
    ensures Raised(l).base == l.base && Raised(l).user == l.user
  {
    if l.o.fps.None? && !l.o.media {
      if l.o.height.Some? { RaisedHeight(l, hostHeight); } else { RaisedBitrate(l, hostHeight); }
    }
    hide NextHigher, TargetHeight, Grow;
  }

  lemma RaisedHeight(l: Ladder, hostHeight: int)
    requires Inv(l, hostHeight) && l.o.fps.None? && !l.o.media && l.o.height.Some?
    ensures Inv(Raised(l), hostHeight) && RecoveryLeft(Raised(l)) < RecoveryLeft(l)
  {
    hide Grow;
  }

  lemma RaisedBitrate(l: Ladder, hostHeight: int)
    requires Inv(l, hostHeight) && l.o.fps.None? && !l.o.media && l.o.height.None? && l.o.bitrate.Some?
    ensures Inv(Raised(l), hostHeight) && RecoveryLeft(Raised(l)) < RecoveryLeft(l)
  {
    hide NextHigher, TargetHeight;
  }

  /** No congestion step and no codec fallback: polls, taken or refused, and single hints. */
  ghost predicate Calm(es: seq<Event>) {
    forall e :: e in es ==> e.EUpgrade? || e.ESignal?
  }

  /** The polls of a run that took an upgrade. */
  function Accepted(l: Ladder, es: seq<Event>): nat
    decreases |es|
  {
    if es == [] then 0
    else (if es[0].EUpgrade? && UpgradeAccepted(l, es[0].env) then 1 else 0) + Accepted(Step(l, es[0]), es[1..])
  }

  lemma CalmStepSpends(l: Ladder, e: Event, hostHeight: int)
    requires Inv(l, hostHeight) && (e.EUpgrade? || e.ESignal?)
    ensures var s := Step(l, e);
            && Inv(s, hostHeight) && s.base == l.base && s.user == l.user && s.stableMs == l.stableMs
            && RecoveryLeft(s) + (if e.EUpgrade? && UpgradeAccepted(l, e.env) then 1 else 0) <= RecoveryLeft(l)
  {
    if l.o != NO_OVERRIDES { UpgradeProgresses(l, hostHeight); }
    hide Raised, RecoveryLeft, BitrateInRange, FpsInRange, HeightInRange, UpscalerNeedsHeight;
  }

  /** Over any calm run each accepted upgrade is paid for from the steps left, and nothing adds to them. */
  lemma {:induction false} RecoverySpends(l: Ladder, es: seq<Event>, hostHeight: int)
    requires Inv(l, hostHeight) && Calm(es)
    ensures var r := Run(l, es);
            && Inv(r, hostHeight) && RecoveryLeft(r) + Accepted(l, es) <= RecoveryLeft(l)
            && r.base == l.base && r.user == l.user
    decreases |es|
  {
    hide Inv, Step, RecoveryLeft, UpgradeAccepted;
    if es != [] {
      assert es[0] in es && forall e :: e in es[1..] ==> e in es;
      CalmStepSpends(l, es[0], hostHeight);
      RecoverySpends(Step(l, es[0]), es[1..], hostHeight);
    }
  }

  /** Once a calm run took enough upgrades no override is left and the settings' own values are in force again. */
  lemma QuietNetworkRecovers(l: Ladder, es: seq<Event>, hostHeight: int)
    requires Inv(l, hostHeight) && Calm(es) && Accepted(l, es) >= RecoveryLeft(l)
    ensures var r := Run(l, es);
            && r.o == NO_OVERRIDES && r.base == l.base && r.user == l.user
            && CurBitrate(r) == KbpsOf(l.base) && CurFps(r) == FpsOf(l.base)
  {
    RecoverySpends(l, es, hostHeight);
    NothingLeftIff(Run(l, es), hostHeight);
  }

  lemma NothingLeftIff(l: Ladder, hostHeight: int)
    requires Inv(l, hostHeight)
    ensures RecoveryLeft(l) == 0 <==> l.o == NO_OVERRIDES
  {
  }

  function TimeOf(e: Event): real {
    match e
    case ECongested(env) => env.now
    case EUpgrade(env) => env.now
    case ESignal(now) => now
    case EFold(_) => 0.0
  }

  function Signals(es: seq<Event>): nat {
    if es == [] then 0 else (if es[0].ESignal? then 1 else 0) + Signals(es[1..])
  }

  /** Unhindered polls and hints from @p from on, never more than @p gap apart. */
  predicate Polled(es: seq<Event>, from: real, gap: real)
    decreases |es|
  {
    es == [] || ((es[0].EUpgrade? ==> !es[0].env.busy) && from <= TimeOf(es[0]) <= from + gap
                 && Polled(es[1..], TimeOf(es[0]), gap))
  }

  /** Enough time for @p steps stable periods, each ending with a poll. */
  function Long(l: Ladder, gap: real, steps: nat): real {
    if steps == 0 then 0.0 else Long(l, gap, steps - 1) + (l.stableMs as real + gap)
  }

  /**
   Polled without pause, a session is back after one stable period and one poll for every step left and
   every hint on the way: @p now is the time of the last event, or of the clock before any.
   */
  lemma {:induction false} QuietTimeRecovers(l: Ladder, es: seq<Event>, now: real, gap: real, hostHeight: int)
    requires Inv(l, hostHeight) && Calm(es) && gap >= 0.0 && Polled(es, now, gap)
    requires 0.0 < QuietSince(l) <= now && now - QuietSince(l) < l.stableMs as real
    requires var end := if es == [] then now else TimeOf(es[|es| - 1]);
             end - QuietSince(l) >= Long(l, gap, RecoveryLeft(l) + Signals(es))
    ensures Run(l, es).o == NO_OVERRIDES
    decreases |es|
  {
    hide Inv, Step, RecoveryLeft, QuietSince, Long, UpgradeAccepted;
    var steps := RecoveryLeft(l) + Signals(es);
    NothingLeftIff(l, hostHeight);
    if l.o == NO_OVERRIDES {
      RecoverySpends(l, es, hostHeight);
      NothingLeftIff(Run(l, es), hostHeight);
    } else {
      StepsTakeTime(l, gap, 1, steps);
      assert es != [];
      var s := Step(l, es[0]);
      assert es[0] in es && forall e :: e in es[1..] ==> e in es;
      assert es[1..] != [] ==> es[1..][|es[1..]| - 1] == es[|es| - 1];
      CalmStepSpends(l, es[0], hostHeight);
      CalmStepWaits(l, es[0], now, gap, hostHeight);
      StepsTakeTime(l, gap, RecoveryLeft(s) + Signals(es[1..]), steps);
      assert Long(s, gap, RecoveryLeft(s) + Signals(es[1..])) == Long(l, gap, RecoveryLeft(s) + Signals(es[1..])) by {
        SamePeriodSameTime(l, s, gap, RecoveryLeft(s) + Signals(es[1..]));
      }
      QuietTimeRecovers(s, es[1..], TimeOf(es[0]), gap, hostHeight);
    }
  }

  /** One unhindered poll or hint: it is refused and changes nothing, or the wait starts over one step further. */
  lemma CalmStepWaits(l: Ladder, e: Event, now: real, gap: real, hostHeight: int)
    requires Inv(l, hostHeight) && l.o != NO_OVERRIDES && (e.ESignal? || (e.EUpgrade? && !e.env.busy))
    requires 0.0 < QuietSince(l) <= now && now - QuietSince(l) < l.stableMs as real && now <= TimeOf(e) <= now + gap
    ensures var s := Step(l, e);
            && 0.0 < QuietSince(s) <= TimeOf(e) && TimeOf(e) - QuietSince(s) < l.stableMs as real
            && (s == l || (QuietSince(s) == TimeOf(e) && TimeOf(e) - QuietSince(l) <= l.stableMs as real + gap
                           && (e.ESignal? || UpgradeAccepted(l, e.env))))
            && (e.ESignal? ==> QuietSince(s) == TimeOf(e))
  {
    hide Raised, BitrateInRange, FpsInRange, HeightInRange, UpscalerNeedsHeight;
    RaisedKeepsClocks(l);
  }

  lemma RaisedKeepsClocks(l: Ladder)
    ensures var r := Raised(l); r.lastSignal == l.lastSignal && r.lastDegrade == l.lastDegrade && r.stableMs == l.stableMs
  {
  }

  lemma SamePeriodSameTime(l: Ladder, s: Ladder, gap: real, steps: nat)
    requires s.stableMs == l.stableMs
    ensures Long(s, gap, steps) == Long(l, gap, steps)
  {
  }

  lemma {:induction false} StepsTakeTime(l: Ladder, gap: real, fewer: nat, steps: nat)
    requires gap >= 0.0 && l.stableMs > 0
    ensures Long(l, gap, 1) == l.stableMs as real + gap
    ensures fewer <= steps ==> Long(l, gap, fewer) <= Long(l, gap, steps)
    ensures fewer < steps ==> Long(l, gap, fewer) + (l.stableMs as real + gap) <= Long(l, gap, steps)
    decreases steps
  {
    assert Long(l, gap, 0) == 0.0;
    if fewer < steps { StepsTakeTime(l, gap, fewer, steps - 1); }
  }

  /** No session ever exceeds its own user's bitrate, frame rate or height. */
  lemma NeverAboveTheUser(user: Settings, es: seq<Event>, hostHeight: int)
    requires hostHeight > 0 && HeightSettled(user, es, hostHeight)
    ensures var r := Run(Launch(user), es);
            && CurBitrate(r) <= KbpsOf(user) && CurFps(r) <= FpsOf(user)
            && (forall live :: SettledAt(user, live, hostHeight)
                  ==> CurHeight(r, live) <= if user.height > 0 then user.height else hostHeight)
            && (r.o.bitrate.Some? ==> FLOOR_KBPS <= r.o.bitrate.value < KbpsOf(user))
            && (r.o.enhancement ==> r.o.height.Some?)
            && !LeftoverOnly(r.o)
  {
    LaunchInv(user, hostHeight);
    RunKeepsInv(Launch(user), es, hostHeight);
    RunKeepsUser(Launch(user), es);
  }

  lemma {:induction false} RunKeepsUser(l: Ladder, es: seq<Event>)
    ensures Run(l, es).user == l.user
    decreases |es|
  {
    if es != [] { RunKeepsUser(Step(l, es[0]), es[1..]); }
  }

  /**
   What a fold costs, knob by knob: once the codec fallback relaunched and every override was recovered, the
   stream is back at the user's own value exactly where no override was in force when it relaunched. The
   transport asked for is the user's exactly when the user's settings name one, as power saving does after
   every fold, or the fold found none to name.
   */
  lemma FoldedSessionRecoversIff(l: Ladder, proven: Option<string>, es: seq<Event>, hostHeight: int, live: int)
    requires Inv(l, hostHeight) && SettledAt(l.user, live, hostHeight)
    requires Calm(es) && Accepted(Fold(l, proven), es) >= RecoveryLeft(Fold(l, proven))
    ensures var r := Run(Fold(l, proven), es);
            && r.o == NO_OVERRIDES
            && (CurBitrate(r) == KbpsOf(l.user) <==> l.o.bitrate.None?)
            && (CurFps(r) == FpsOf(l.user) <==> l.o.fps.None?)
            && (CurHeight(r, live) == CurHeight(Launch(l.user), live) <==> l.o.height.None?)
            && (r.base.enhancement == l.user.enhancement <==> (l.o.enhancement ==> l.user.enhancement))
            && (r.base.transport == l.user.transport <==> l.user.transport.Some? || (!l.o.media && proven.None?))
  {
    FoldKeepsInv(l, proven, hostHeight);
    QuietNetworkRecovers(Fold(l, proven), es, hostHeight);
  }

  // ----- Descent --------------------------------------------------------------------------------

  /** Knobs still above their floor, with the bitrate counted kbps by kbps. */
  function DescentLeft(l: Ladder): nat
    requires l.o.bitrate.Some? ==> l.o.bitrate.value >= FLOOR_KBPS
  {
    (if l.o.height.None? then 5 else 4 - HeightRank(l.o.height.value))
    + (if l.o.media then 0 else 1) + (if l.o.fps.None? then 1 else 0)
    + (if l.o.bitrate.Some? then l.o.bitrate.value - FLOOR_KBPS
       else if KbpsOf(l.user) > FLOOR_KBPS then KbpsOf(l.user) - FLOOR_KBPS + 1 else 0)
  }

  /**
   An accepted congestion step that is not a plain restart strictly lowers its own knob; no accepted step
   raises the height, the frame rate or the bitrate, or leaves the forced media transport.
   */
  lemma StepOnlyLowers(l: Ladder, env: Env, hostHeight: int)
    requires Inv(l, hostHeight) && DegradeAccepted(l, env)
    ensures var (r, c) := (RungFor(l, env), Congested(l, env));
            && CurHeight(c, env.liveHeight) <= CurHeight(l, env.liveHeight)
            && CurBitrate(c) <= CurBitrate(l) && CurFps(c) <= CurFps(l) && (l.o.media ==> c.o.media)
            && (r.Resolution? ==> CurHeight(c, env.liveHeight) < CurHeight(l, env.liveHeight))
            && (r.MediaTransport? ==> !l.o.media && c.o.media)
            && (r.FrameRate? ==> CurFps(c) < CurFps(l))
            && (r.Bitrate? ==> CurBitrate(c) < CurBitrate(l))
            && (r.Restart? ==> c.o == l.o)
            && (CurBitrate(l) > FLOOR_KBPS ==> CurBitrate(c) < CurBitrate(l))
  {
  }

  /** A plain restart happens exactly when every knob is at its floor. */
  lemma RestartIffAtTheFloor(l: Ladder, env: Env, hostHeight: int)
    requires Inv(l, hostHeight)
    ensures RungFor(l, env).Restart? <==>
            && CurHeight(l, env.liveHeight) <= 720 && (env.onMedia || l.o.media)
            && (l.o.fps.Some? || CurFps(l) <= 60) && CurBitrate(l) <= FLOOR_KBPS
  {
  }

  lemma DescentSpends(l: Ladder, env: Env, hostHeight: int)
    requires Inv(l, hostHeight) && DegradeAccepted(l, env) && SettledAt(l.user, env.liveHeight, hostHeight)
    ensures Inv(Congested(l, env), hostHeight)
    ensures if RungFor(l, env).Restart? then DescentLeft(Congested(l, env)) <= DescentLeft(l)
            else DescentLeft(Congested(l, env)) < DescentLeft(l)
  {
    CongestedKeepsInv(l, env, hostHeight);
  }

  /** Congestion steps of a run that turned a knob. */
  function Turns(l: Ladder, es: seq<Event>): nat
    decreases |es|
  {
    if es == [] then 0
    else (if es[0].ECongested? && DegradeAccepted(l, es[0].env) && !RungFor(l, es[0].env).Restart? then 1 else 0)
         + Turns(Step(l, es[0]), es[1..])
  }

  /** Without an upgrade, a session turns only so many knobs; every further step is a plain restart. */
  lemma {:induction false} DescentIsFinite(l: Ladder, es: seq<Event>, hostHeight: int)
    requires Inv(l, hostHeight) && HeightSettled(l.user, es, hostHeight)
    requires forall e :: e in es ==> !e.EUpgrade?
    ensures Turns(l, es) <= DescentLeft(l)
    decreases |es|
  {
    if es != [] {
      assert es[0] in es;
      StepKeepsInv(l, es[0], hostHeight);
      DescentIsFinite(Step(l, es[0]), es[1..], hostHeight);
      if es[0].ECongested? && DegradeAccepted(l, es[0].env) { DescentSpends(l, es[0].env, hostHeight); }
    }
  }

  // ----- Timing ---------------------------------------------------------------------------------

  /** The ladder after the first @p k events. */
  function After(l: Ladder, es: seq<Event>, k: nat): Ladder
    requires k <= |es|
  {
    if k == 0 then l else Step(After(l, es, k - 1), es[k - 1])
  }

  predicate DegradesAt(l: Ladder, es: seq<Event>, k: nat)
    requires k < |es|
  {
    es[k].ECongested? && DegradeAccepted(After(l, es, k), es[k].env)
  }

  /** Two accepted congestion steps of a session are at least 15 s apart. */
  lemma {:induction false} DegradesAreSpaced(l: Ladder, es: seq<Event>, i: nat, j: nat)
    requires i < j < |es| && DegradesAt(l, es, i) && DegradesAt(l, es, j) && es[i].env.now > 0.0
    ensures es[j].env.now - es[i].env.now >= DEGRADE_GAP
  {
    LastDegradeAdvances(l, es, i, j);
  }

  lemma {:induction false} LastDegradeAdvances(l: Ladder, es: seq<Event>, i: nat, j: nat)
    requires i < j <= |es| && DegradesAt(l, es, i) && es[i].env.now > 0.0
    ensures After(l, es, j).lastDegrade >= es[i].env.now
    decreases j
  {
    if j > i + 1 { LastDegradeAdvances(l, es, i, j - 1); }
  }

  /** An accepted upgrade waited the full stable period after the last signal, degrade and upgrade. */
  lemma UpgradeWaits(l: Ladder, env: Env)
    requires UpgradeAccepted(l, env)
    ensures env.now - l.lastSignal >= l.stableMs as real
    ensures env.now - l.lastDegrade >= l.stableMs as real
    ensures env.now - l.lastUpgrade >= l.stableMs as real
  {
  }

  /** The clock of a run's events never goes back; a fold reads none. */
  predicate ClockRuns(es: seq<Event>) {
    forall i, j :: 0 <= i < j < |es| && !es[i].EFold? && !es[j].EFold? ==> TimeOf(es[i]) <= TimeOf(es[j])
  }

  predicate UpgradesAt(l: Ladder, es: seq<Event>, k: nat)
    requires k < |es|
  {
    es[k].EUpgrade? && UpgradeAccepted(After(l, es, k), es[k].env)
  }

  /** The events an upgrade must keep its distance from. */
  predicate Disturbs(l: Ladder, es: seq<Event>, k: nat)
    requires k < |es|
  {
    es[k].ESignal? || DegradesAt(l, es, k) || UpgradesAt(l, es, k)
  }

  /** In any run an accepted upgrade comes a full stable period after every earlier hint, step and upgrade. */
  lemma UpgradesAreSpaced(l: Ladder, es: seq<Event>, i: nat, j: nat)
    requires i < j < |es| && ClockRuns(es) && Disturbs(l, es, i) && UpgradesAt(l, es, j)
    ensures TimeOf(es[j]) - TimeOf(es[i]) >= After(l, es, j).stableMs as real
  {
    QuietSinceAdvances(l, es, i, j);
    UpgradeWaits(After(l, es, j), es[j].env);
  }

  lemma {:induction false} QuietSinceAdvances(l: Ladder, es: seq<Event>, i: nat, j: nat)
    requires i < j <= |es| && ClockRuns(es) && Disturbs(l, es, i)
    ensures QuietSince(After(l, es, j)) >= TimeOf(es[i])
    decreases j
  {
    hide Raised, Lowered, Backoff, RungFor, ForcesEnhancement;
    if j > i + 1 {
      QuietSinceAdvances(l, es, i, j - 1);
      KeepsQuietSince(After(l, es, j - 1), es[j - 1], TimeOf(es[i]));
    } else {
      RaisedKeepsClocks(After(l, es, i));
    }
  }

  lemma KeepsQuietSince(l: Ladder, e: Event, since: real)
    requires QuietSince(l) >= since && (e.EFold? || TimeOf(e) >= since)
    ensures QuietSince(Step(l, e)) >= since
  {
    hide Raised, Lowered, Backoff, RungFor, ForcesEnhancement;
    RaisedKeepsClocks(l);
  }

  /** Congestion steps that came within a minute of an upgrade. */
  function Flaps(l: Ladder, es: seq<Event>): nat
    decreases |es|
  {
    if es == [] then 0
    else (if es[0].ECongested? && DegradeAccepted(l, es[0].env) && l.lastUpgrade != 0.0
             && es[0].env.now - l.lastUpgrade < FLAP_WINDOW then 1 else 0)
         + Flaps(Step(l, es[0]), es[1..])
  }

  /** The stable period is 75 s doubled once per flap, capped at ten minutes. */
  lemma {:induction false} StablePeriodDoublesPerFlap(l: Ladder, es: seq<Event>, k: nat)
    requires l.stableMs == Min(STABLE_CAP, STABLE_MS * Pow2(k))
    ensures Run(l, es).stableMs == Min(STABLE_CAP, STABLE_MS * Pow2(k + Flaps(l, es)))
    decreases |es|
  {
    if es != [] {
      var s := Step(l, es[0]);
      DoublingKeepsCap(k);
      StablePeriodDoublesPerFlap(s, es[1..], k + Flaps(l, es) - Flaps(s, es[1..]));
    }
  }

  lemma DoublingKeepsCap(k: nat)
    ensures STABLE_MS * Pow2(k + 1) == 2 * (STABLE_MS * Pow2(k))
  {
  }

  // ----- One step, read off the knobs -----------------------------------------------------------

  /** Math.round */
  function Round(x: real): int {
    (x + 0.5).Floor
  }

  /** What an accepted step down leaves of everything but the knobs. */
  ghost predicate CountedDown(l: Ladder, c: Ladder, now: real) {
    && c.user == l.user && c.base == l.base && c.lastSignal == l.lastSignal && c.lastUpgrade == l.lastUpgrade
    && c.lastDegrade == now && c.level == l.level + 1
    && c.stableMs == if l.lastUpgrade != 0.0 && now - l.lastUpgrade < 60000.0 && l.stableMs < 300000 then 2 * l.stableMs
                     else if l.lastUpgrade != 0.0 && now - l.lastUpgrade < 60000.0 then 600000 else l.stableMs
  }

  /** A congestion while another step, sharing or a native host stands in the way, or within 15 s of the last, is ignored. */
  lemma RefusedStepIsNone(l: Ladder, env: Env)
    ensures env.busy || (l.lastDegrade != 0.0 && env.now - l.lastDegrade < 15000.0) ==> Congested(l, env) == l
    ensures !env.busy && (l.lastDegrade == 0.0 || env.now - l.lastDegrade >= 15000.0) ==>
              CountedDown(l, Congested(l, env), env.now)
  {
  }

  /** The height, frame rate and bitrate now streamed. */
  function HeightNow(l: Ladder, live: int): int {
    var asked := if l.o.height.Some? then l.o.height.value else l.base.height;
    if asked > 0 then asked else if live > 0 then live else 1080
  }

  function FpsNow(l: Ladder): int {
    var asked := if l.o.fps.Some? then l.o.fps.value else l.base.fps;
    if asked > 0 then asked else 60
  }

  function KbpsNow(l: Ladder): int {
    var asked := if l.o.bitrate.Some? then l.o.bitrate.value else l.base.bitrate;
    if asked > 0 then asked else 20000
  }

  /** The bitrate after a cut: half on the first step of a descent, seven tenths on any other, 2 Mbps at least. */
  function CutKbps(l: Ladder): int {
    var cut := Round(KbpsNow(l) as real * if l.level == 0 then 0.5 else 0.7);
    if cut < 2000 then 2000 else cut
  }

  /** @p kbps, where that is less than what is streamed. */
  function LessKbps(l: Ladder, kbps: int): Option<int> {
    if kbps < KbpsNow(l) then Some(kbps) else l.o.bitrate
  }

  lemma NowIs(l: Ladder, live: int)
    ensures CurHeight(l, live) == HeightNow(l, live) && CurFps(l) == FpsNow(l) && CurBitrate(l) == KbpsNow(l)
    ensures Max(FLOOR_KBPS, Cut(CurBitrate(l), l.level + 1)) == CutKbps(l)
  {
  }

  /** @p h is the tallest of 720, 1080, 1440 and 2160 lines that is less than @p now. */
  predicate TallestBelow(h: int, now: int) {
    || (h == 720 && 720 < now <= 1080) || (h == 1080 && 1080 < now <= 1440)
    || (h == 1440 && 1440 < now <= 2160) || (h == 2160 && 2160 < now)
  }

  /**
   An accepted step down, knob by knob. Above 720 lines the picture goes to the tallest rung
   below it, its bitrate to the cut or to what that height is recommended, and the upscaler comes on
   unless it was, or the stream is no canvas. At 720 or less the first of these goes: a canvas transport, a
   frame rate over 60, the bitrate alone; and with none left nothing changes. Every step takes the cut along.
   */
  lemma StepDownIs(l: Ladder, env: Env, h: int)
    requires !env.busy && (l.lastDegrade == 0.0 || env.now - l.lastDegrade >= 15000.0)
    requires TallestBelow(h, HeightNow(l, env.liveHeight))
    ensures var c := Congested(l, env);
            var advised := env.auto(h, FpsNow(l));
            var kbps := if advised >= CutKbps(l) then CutKbps(l) else if advised < 2000 then 2000 else advised;
            var upscales := !l.o.enhancement && !l.base.enhancement && !env.onMedia && !l.o.media;
            && c.o == Overrides(LessKbps(l, kbps), l.o.fps, Some(h), l.o.media, l.o.enhancement || upscales)
            && c.enhancementForced == (l.enhancementForced || upscales)
            && c.originalHeight == Some(if l.originalHeight.Some? then l.originalHeight.value else HeightNow(l, env.liveHeight))
  {
    NowIs(l, env.liveHeight);
    hide CurHeight, CurFps, CurBitrate, Cut, Backoff, HeightNow, FpsNow, KbpsNow, CutKbps;
    assert NextLower(HeightNow(l, env.liveHeight)) == h;
  }

  lemma StepDownAt720(l: Ladder, env: Env)
    requires !env.busy && (l.lastDegrade == 0.0 || env.now - l.lastDegrade >= 15000.0)
    requires HeightNow(l, env.liveHeight) <= 720
    ensures var c := Congested(l, env);
            var (canvas, fast) := (!env.onMedia && !l.o.media, l.o.fps.None? && FpsNow(l) > 60);
            && c.enhancementForced == l.enhancementForced && c.originalHeight == l.originalHeight
            && c.o == Overrides(LessKbps(l, CutKbps(l)), if !canvas && fast then Some(60) else l.o.fps, l.o.height,
                                l.o.media || canvas, l.o.enhancement)
  {
    NowIs(l, env.liveHeight);
    hide CurHeight, CurFps, CurBitrate, Cut, Backoff, HeightNow, FpsNow, KbpsNow, CutKbps;
  }

  /** The last hint, step down or step up. */
  function LastDisturbed(l: Ladder): real {
    var a := if l.lastDegrade < l.lastSignal then l.lastSignal else l.lastDegrade;
    if a < l.lastUpgrade then l.lastUpgrade else a
  }

  /** A poll that may step up: nothing in the way, something to give back, a full stable period without disturbance. */
  predicate DueUp(l: Ladder, env: Env) {
    !env.busy && l.o != NO_OVERRIDES && LastDisturbed(l) != 0.0 && env.now - LastDisturbed(l) >= l.stableMs as real
  }

  /** The height recovery works toward: the one asked for, or the one first lowered. */
  function HeightGoal(l: Ladder): int {
    if l.base.height > 0 then l.base.height
    else if l.originalHeight == None || l.originalHeight == Some(0) then 1080 else l.originalHeight.value
  }

  /** The one knob an accepted step up turns, the first overridden of frame rate, transport, height and bitrate. */
  ghost predicate OneKnobUp(l: Ladder, o: Overrides) {
    if l.o.fps.Some? then o == l.o.(fps := None)
    else if l.o.media then o == l.o.(media := false)
    else if l.o.height.Some? then HeightUp(l, o, l.o.height.value, HeightGoal(l))
    else
      var more := Round(GetOr(l.o.bitrate, 0) as real / 0.7);
      var whole := if l.base.bitrate > 0 then l.base.bitrate else 20000;
      l.o.bitrate.Some? && o == l.o.(bitrate := if more < whole then Some(more) else None)
  }

  /** To the next of 1080, 1440 and 2160, or off, with the upscaler the ladder forced, once that reaches the goal. */
  ghost predicate HeightUp(l: Ladder, o: Overrides, h: int, goal: int) {
    if h < 1080 < goal then o == l.o.(height := Some(1080))
    else if 1080 <= h < 1440 < goal then o == l.o.(height := Some(1440))
    else if 1440 <= h < 2160 < goal then o == l.o.(height := Some(2160))
    else o == l.o.(height := None, enhancement := l.o.enhancement && !l.enhancementForced)
  }

  /**
   One knob per upgrade: a poll that is due turns exactly one, and leaves the settings, the other clocks and
   the stable period alone; one that is not due changes nothing.
   */
  lemma OneKnobPerUpgrade(l: Ladder, env: Env, hostHeight: int)
    requires Inv(l, hostHeight)
    ensures !DueUp(l, env) ==> Upgraded(l, env) == l
    ensures DueUp(l, env) ==>
              var r := Upgraded(l, env);
              && OneKnobUp(l, r.o)
              && r.enhancementForced == (l.enhancementForced && !(l.o.height.Some? && r.o.height.None?))
              && r == l.(o := r.o, enhancementForced := r.enhancementForced, lastUpgrade := env.now,
                         level := if r.o == NO_OVERRIDES then 0 else l.level)
  {
    if l.o != NO_OVERRIDES {
      UpgradeProgresses(l, hostHeight);
      RaisedIs(l);
    }
    hide Inv, Raised, OneKnobUp, RecoveryLeft, LeftoverOnly;
  }

  lemma RaisedIs(l: Ladder)
    requires l.o != NO_OVERRIDES && !LeftoverOnly(l.o)
    ensures var r := Raised(l);
            && OneKnobUp(l, r.o)
            && r.enhancementForced == (l.enhancementForced && !(l.o.height.Some? && r.o.height.None?))
            && r == l.(o := r.o, enhancementForced := r.enhancementForced)
  {
    if l.o.bitrate.Some? { GrowRounds(l.o.bitrate.value); }
    hide Grow, Round;
  }

  lemma GrowRounds(b: int)
    ensures Grow(b) == Round(b as real / 0.7)
  {
    var n := (20 * b + 7) / 14;
    assert b as real / 0.7 == 10.0 * b as real / 7.0;
    assert 14 * n <= 20 * b + 7 < 14 * n + 14;
    assert n as real <= 10.0 * b as real / 7.0 + 0.5 < n as real + 1.0;
  }

  // ----- The object -----------------------------------------------------------------------------

  class App {
    const user: Settings
    var lastStreamingSettings: Settings
    var overrides: Overrides
    var degradeLevel: nat
    var enhancementAutoForced: bool
    var originalStreamHeight: Option<int>
    var lastCongSignal: real
    var lastDegradeTime: real
    var lastUpgradeTime: real
    var upgradeStableMs: int

    function Now(): Ladder
      reads this
    {
      Ladder(user, lastStreamingSettings, overrides, degradeLevel, enhancementAutoForced, originalStreamHeight,
             lastCongSignal, lastDegradeTime, lastUpgradeTime, upgradeStableMs)
    }

    constructor (settings: Settings)
      ensures Now() == Launch(settings)
    {
      user, lastStreamingSettings, overrides, degradeLevel := settings, settings, NO_OVERRIDES, 0;
      enhancementAutoForced, originalStreamHeight := false, None;
      lastCongSignal, lastDegradeTime, lastUpgradeTime, upgradeStableMs := 0.0, 0.0, 0.0, STABLE_MS;
    }

    method OnStreamCongested(env: Env)
      modifies this
      ensures Now() == Congested(old(Now()), env)
    {
      if env.busy { return; }
      if lastDegradeTime != 0.0 && env.now - lastDegradeTime < DEGRADE_GAP { return; }
      ghost var was := Now();
      var curBitrate, curFps, curHeight := CurBitrate(Now()), CurFps(Now()), CurHeight(Now(), env.liveHeight);
      lastDegradeTime := env.now;
      if lastUpgradeTime != 0.0 && env.now - lastUpgradeTime < FLAP_WINDOW {
        upgradeStableMs := Min(STABLE_CAP, upgradeStableMs * 2);
      }
      degradeLevel := degradeLevel + 1;
      TurnKnob(env, curBitrate, curFps, curHeight, was);
    }

    /** The rungs themselves, once the step is accepted and counted. */
    method TurnKnob(env: Env, curBitrate: int, curFps: int, curHeight: int, ghost was: Ladder)
      requires DegradeAccepted(was, env)
      requires curBitrate == CurBitrate(was) && curFps == CurFps(was) && curHeight == CurHeight(was, env.liveHeight)
      requires Now() == was.(level := was.level + 1, lastDegrade := env.now, stableMs := Backoff(was, env.now))
      modifies this`overrides, this`enhancementAutoForced, this`originalStreamHeight
      ensures Now() == Congested(was, env)
    {
      hide Cut, CurHeight, CurBitrate, CurFps, NextLower, Backoff;
      var newBitrate := Max(FLOOR_KBPS, Cut(curBitrate, degradeLevel));
      if curHeight > 720 {
        var next := NextLower(curHeight);
        if originalStreamHeight.None? { originalStreamHeight := Some(curHeight); }
        newBitrate := Max(FLOOR_KBPS, Min(newBitrate, env.auto(next, curFps)));
        if !(overrides.enhancement || lastStreamingSettings.enhancement) && !env.onMedia && !overrides.media {
          overrides := overrides.(enhancement := true);
          enhancementAutoForced := true;
        }
        overrides := overrides.(height := Some(next));
      } else if !env.onMedia && !overrides.media {
        overrides := overrides.(media := true);
      } else if overrides.fps.None? && curFps > 60 {
        overrides := overrides.(fps := Some(60));
      }
      if newBitrate < curBitrate { overrides := overrides.(bitrate := Some(newBitrate)); }
    }

    method MaybeUpgradeQuality(env: Env)
      modifies this
      ensures Now() == Upgraded(old(Now()), env)
    {
      if env.busy || overrides == NO_OVERRIDES { return; }
      var quietSince := QuietSince(Now());
      if quietSince == 0.0 || env.now - quietSince < upgradeStableMs as real { return; }
      if overrides.fps.Some? {
        overrides := overrides.(fps := None);
      } else if overrides.media {
        overrides := overrides.(media := false);
      } else if overrides.height.Some? {
        var target := TargetHeight(Now());
        var next := NextHigher(overrides.height.value);
        if next.None? || next.value >= target {
          overrides := overrides.(height := None);
          if enhancementAutoForced {
            overrides := overrides.(enhancement := false);
            enhancementAutoForced := false;
          }
        } else {
          overrides := overrides.(height := next);
        }
      } else if overrides.bitrate.Some? {
        var next := Grow(overrides.bitrate.value);
        overrides := overrides.(bitrate := if next >= KbpsOf(lastStreamingSettings) then None else Some(next));
      } else {
        overrides := NO_OVERRIDES;
      }
      lastUpgradeTime := env.now;
      if overrides == NO_OVERRIDES { degradeLevel := 0; }
    }

    method OnCongestionSignal(now: real)
      modifies this
      ensures Now() == Signal(old(Now()), now)
    {
      lastCongSignal := now;
    }

    /** The stored settings, the overrides over them, then the rung that worked unless one is named. */
    method CodecFallbackRelaunch(proven: Option<string>)
      modifies this
      ensures Now() == Fold(old(Now()), proven)
    {
      var settings := user;
      if overrides.bitrate.Some? { settings := settings.(bitrate := overrides.bitrate.value); }
      if overrides.fps.Some? { settings := settings.(fps := overrides.fps.value); }
      if overrides.height.Some? { settings := settings.(height := overrides.height.value); }
      if overrides.enhancement { settings := settings.(enhancement := true); }
      if user.transport.None? {
        settings := settings.(transport := if overrides.media then Some(NATIVE_MEDIA) else proven);
      }
      lastStreamingSettings := settings;
    }
  }
}
