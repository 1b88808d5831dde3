/**
 The browser's walk down the transport chain in frontend/js/app.js: `_onTransportFailed` and the relaunch
 it triggers. While a relaunch is in flight the outgoing view is silenced, so the only outcome heard is
 the launch's own.
 */
module TransportFallback {

  datatype Reason = LaunchFailed | IdentityRefused | DecoderUnsupported | IceTimeout | OtherFailure

  /** Live: a stream view is mounted. Launching: a relaunch is in flight. Ended: the view has quit. */
  datatype Phase = Live | Launching | Ended

  datatype Client = Client(phase: Phase, chain: seq<string>, index: nat, launchRetried: bool, firstRetried: bool,
                           relaunches: nat)

  const MEDIA := "webrtc-media"

  predicate IsMedia(rung: string) {
    MEDIA <= rung
  }

  /** The first media rung at or after @p i, or the chain's length. */
  function NextMedia(chain: seq<string>, i: nat): (r: nat)
    requires i <= |chain|
    ensures i <= r <= |chain| && (r < |chain| ==> IsMedia(chain[r]))
    ensures forall k :: i <= k < r ==> !IsMedia(chain[k])
    decreases |chain| - i
  {
    if i < |chain| && !IsMedia(chain[i]) then NextMedia(chain, i + 1) else i
  }

  function Relaunch(c: Client, i: nat): Client {
    c.(phase := Launching, index := i, relaunches := c.relaunches + 1)
  }

  function Quit(c: Client): Client {
    c.(phase := Ended)
  }

  /** The decision taken on one failure. */
  function Fail(c: Client, reason: Reason): Client {
    var n := |c.chain|;
    if reason.LaunchFailed? then
      var exhausted := c.index >= n;
      if exhausted || c.launchRetried then
        if !exhausted && c.firstRetried && c.index + 1 < n then Relaunch(c, c.index + 1) else Quit(c)
      else Relaunch(c.(launchRetried := true), c.index)
    else if reason.IdentityRefused? then Quit(c)
    else
      var f := if c.index == 0 && reason.IceTimeout? then c.(firstRetried := true) else c;
      if f.index == 0 && !f.firstRetried && !reason.DecoderUnsupported? && !reason.IceTimeout? then
        Relaunch(f.(firstRetried := true), 0)
      else
        var next := if reason.DecoderUnsupported? && c.index + 1 <= n then NextMedia(c.chain, c.index + 1) else c.index + 1;
        if next < n then Relaunch(f, next) else Quit(f)
  }

  datatype Event =
    | Failure(reason: Reason)
    | Launched(chain: seq<string>, index: nat)
    | Refused
    | Stopped

  /** A live view reports any failure but a launch's; a launch in flight reports its result; nothing else is heard. */
  function Step(c: Client, e: Event): Client {
    match e
    case Stopped => Quit(c)
    case Failure(reason) => if c.phase.Live? && !reason.LaunchFailed? then Fail(c, reason) else c
    case Launched(chain, index) =>
      if c.phase.Launching? then c.(phase := Live, chain := chain, index := index, launchRetried := false) else c
    case Refused => if c.phase.Launching? then Fail(c, LaunchFailed) else c
  }

  function Steps(c: Client, es: seq<Event>): Client
    decreases |es|
  {
    if es == [] then c else Steps(Step(c, es[0]), es[1..])
  }

  /** The backend answers every relaunch with the same chain and the index asked for. */
  predicate Unchanging(c: Client, es: seq<Event>)
    decreases |es|
  {
    es == [] || ((es[0].Launched? && c.phase.Launching? ==> es[0].chain == c.chain && es[0].index == c.index)
                 && Unchanging(Step(c, es[0]), es[1..]))
  }

  // ----- Termination ----------------------------------------------------------------------------

  /** Relaunches still possible: two per rung ahead, and those the current rung has left. */
  function Budget(c: Client): nat {
    var n := |c.chain|;
    var first := if c.index == 0 && !c.firstRetried then 1 else 0;
    if c.phase.Ended? then 0
    else if c.index >= n then first
    else 2 * (n - 1 - c.index) + 2 * first + (if c.phase.Live? || c.launchRetried then 0 else 1)
  }

  /** A live view follows a launch that succeeded, which re-arms the launch retry. */
  predicate Rearmed(c: Client) {
    c.phase.Live? ==> !c.launchRetried
  }

  lemma StepSpendsBudget(c: Client, e: Event)
    requires Rearmed(c) && Unchanging(c, [e])
    ensures var c' := Step(c, e);
            && Rearmed(c') && c'.chain == c.chain
            && c'.relaunches + Budget(c') <= c.relaunches + Budget(c)
            && c.index <= c'.index && c.relaunches <= c'.relaunches
  {
  }

  lemma {:induction false} RunSpendsBudget(c: Client, es: seq<Event>)
    requires Rearmed(c) && Unchanging(c, es)
    ensures var c' := Steps(c, es);
            && c'.chain == c.chain && c.index <= c'.index
            && c'.relaunches + Budget(c') <= c.relaunches + Budget(c)
    decreases |es|
  {
    if es != [] {
      assert Unchanging(c, [es[0]]) by { assert [es[0]][1..] == []; }
      StepSpendsBudget(c, es[0]);
      RunSpendsBudget(Step(c, es[0]), es[1..]);
    }
  }

  /** A fresh launch that came up on some rung. */
  predicate Fresh(c: Client) {
    c.phase.Live? && !c.launchRetried && !c.firstRetried && c.relaunches == 0
  }

  /**
   Whatever fails, in whatever order, a chain of n rungs costs at most 2n relaunches, and never walks back.
   A reply that named no chain still earns the silent retry of the first transport.
   */
  lemma AtMostTwoRelaunchesPerRung(c: Client, es: seq<Event>)
    requires Fresh(c) && Unchanging(c, es)
    ensures Steps(c, es).relaunches <= if c.chain == [] then 1 else 2 * |c.chain|
    ensures c.index <= Steps(c, es).index
  {
    RunSpendsBudget(c, es);
  }

  /** One rung at its worst: it fails, its relaunch is refused once, the retry comes up. */
  function WorstRung(chain: seq<string>, i: nat): seq<Event> {
    [Failure(OtherFailure), Refused, Launched(chain, i)]
  }

  /** Every rung from @p i on at its worst. */
  function WorstRun(chain: seq<string>, i: nat): seq<Event>
    requires i <= |chain|
    decreases |chain| - i
  {
    if i == |chain| then [Failure(OtherFailure)] else WorstRung(chain, i) + WorstRun(chain, i + 1)
  }

  /** Before the rung @p i: alive on the rung above it, or fresh on rung 0. */
  lemma RungCosts(c: Client, chain: seq<string>, i: nat, r: nat, rest: seq<Event>)
    requires i < |chain| && c == Client(Live, chain, if i == 0 then 0 else i - 1, false, i > 0, r)
    ensures Steps(c, WorstRung(chain, i) + rest) == Steps(Client(Live, chain, i, false, true, r + 2), rest)
    ensures Unchanging(c, WorstRung(chain, i) + rest) <==> Unchanging(Client(Live, chain, i, false, true, r + 2), rest)
  {
    var es := WorstRung(chain, i) + rest;
    var done := Client(Live, chain, i, false, true, r + 2);
    var c1 := Step(c, es[0]);
    assert c1 == Client(Launching, chain, i, false, true, r + 1);
    var c2 := Step(c1, es[1]);
    assert c2 == Client(Launching, chain, i, true, true, r + 2);
    assert es[1..][1..][1..] == rest && es[1..][0] == es[1] && es[1..][1..][0] == es[2];
    assert Step(c2, es[2]) == done;
    assert Steps(c1, es[1..]) == Steps(c2, es[1..][1..]) == Steps(done, rest);
    assert Unchanging(c2, es[1..][1..]) <==> Unchanging(done, rest);
    assert Unchanging(c1, es[1..]) <==> Unchanging(c2, es[1..][1..]);
  }

  lemma {:induction false} WorstRunFrom(c: Client, chain: seq<string>, i: nat)
    requires i <= |chain| && chain != [] && c == Client(Live, chain, if i == 0 then 0 else i - 1, false, i > 0, 2 * i)
    ensures Unchanging(c, WorstRun(chain, i))
    ensures Steps(c, WorstRun(chain, i)) == Client(Ended, chain, |chain| - 1, false, true, 2 * |chain|)
    decreases |chain| - i
  {
    if i == |chain| {
      assert WorstRun(chain, i)[1..] == [];
    } else {
      assert WorstRun(chain, i) == WorstRung(chain, i) + WorstRun(chain, i + 1);
      hide Steps, Unchanging, WorstRun, WorstRung;
      RungCosts(c, chain, i, 2 * i, WorstRun(chain, i + 1));
      WorstRunFrom(Client(Live, chain, i, false, true, 2 * i + 2), chain, i + 1);
    }
  }

  /** The bound is reached: some run of every non-empty chain relaunches exactly 2n times. */
  lemma BoundIsReached(chain: seq<string>)
    requires chain != []
    ensures var c := Client(Live, chain, 0, false, false, 0);
            && Fresh(c) && Unchanging(c, WorstRun(chain, 0))
            && Steps(c, WorstRun(chain, 0)) == Client(Ended, chain, |chain| - 1, false, true, 2 * |chain|)
  {
    hide Steps, Unchanging, WorstRun;
    WorstRunFrom(Client(Live, chain, 0, false, false, 0), chain, 0);
  }

  // ----- Refusal and giving up ------------------------------------------------------------------

  lemma {:induction false} EndedStaysEnded(c: Client, es: seq<Event>)
    requires c.phase.Ended?
    ensures Steps(c, es) == c
    decreases |es|
  {
    if es != [] { EndedStaysEnded(Step(c, es[0]), es[1..]); }
  }

  /** After the host failed to prove its identity no rung is ever tried again. */
  lemma NoRelaunchAfterIdentityRefusal(c: Client, es: seq<Event>)
    requires c.phase.Live?
    ensures Steps(c, [Failure(IdentityRefused)] + es) == c.(phase := Ended)
  {
    var all := [Failure(IdentityRefused)] + es;
    assert all[1..] == es;
    EndedStaysEnded(Step(c, all[0]), es);
  }

  /** A transport failure ends the stream exactly when no usable rung is left below the current one. */
  lemma GivesUpOnlyWithNothingLeft(c: Client, reason: Reason)
    requires c.phase.Live? && c.index < |c.chain| && (reason.DecoderUnsupported? || reason.IceTimeout? || reason.OtherFailure?)
    ensures Fail(c, reason).phase.Ended? <==>
            && (reason.OtherFailure? ==> c.index != 0 || c.firstRetried)
            && forall k :: c.index < k < |c.chain| ==> !Usable(c.chain[k], reason)
  {
    if reason.DecoderUnsupported? {
      var next := NextMedia(c.chain, c.index + 1);
      if next < |c.chain| { assert Usable(c.chain[next], reason); }
      assert forall k :: c.index < k < next ==> !Usable(c.chain[k], reason);
    } else if c.index + 1 < |c.chain| {
      assert Usable(c.chain[c.index + 1], reason);
    }
  }

  /** Relaunched at @p i, or at the end of the road when there is no such rung. */
  ghost predicate GoesTo(c: Client, c': Client, i: nat) {
    c' == c.(phase := c'.phase, index := c'.index, relaunches := c'.relaunches, firstRetried := c'.firstRetried)
    && if i < |c.chain| then c'.phase == Launching && c'.index == i && c'.relaunches == c.relaunches + 1
       else c'.phase == Ended && c'.index == c.index && c'.relaunches == c.relaunches
  }

  /**
   Where a live stream's failure leads. The first transport gets one silent retry in place, but not after an
   ICE timeout, which only marks it as tried, nor for a browser that cannot decode, which goes to the nearest
   media rung below or ends. Everything else goes one rung down.
   */
  lemma LiveFailureLeads(c: Client, reason: Reason, media: nat)
    requires c.phase.Live?
    ensures var c' := Step(c, Failure(reason));
            && (reason.LaunchFailed? ==> c' == c)
            && (reason.IdentityRefused? ==> c' == c.(phase := Ended))
            && (reason.IceTimeout? ==> GoesTo(c, c', c.index + 1) && c'.firstRetried == (c.firstRetried || c.index == 0))
            && (reason.OtherFailure? && c.index == 0 && !c.firstRetried ==>
                  c' == c.(phase := Launching, firstRetried := true, relaunches := c.relaunches + 1))
            && (reason.OtherFailure? && (c.index > 0 || c.firstRetried) ==>
                  GoesTo(c, c', c.index + 1) && c'.firstRetried == c.firstRetried)
            && (reason.DecoderUnsupported? && (media < |c.chain| ==> "webrtc-media" <= c.chain[media])
                && c.index < media <= |c.chain| && (forall k :: c.index < k < media ==> !("webrtc-media" <= c.chain[k]))
                ==> GoesTo(c, c', media) && c'.firstRetried == c.firstRetried)
  {
    if reason.DecoderUnsupported? && c.index < media <= |c.chain| {
      var next := NextMedia(c.chain, c.index + 1);
      assert next < media ==> IsMedia(c.chain[next]);
    }
  }

  /**
   Where a launch that never started leads: one retry in place; then one rung down, with no further retry, if
   a transport had failed before it; otherwise, or past the last rung, it is over.
   */
  lemma RefusedLaunchLeads(c: Client)
    requires c.phase.Launching?
    ensures var c' := Step(c, Refused);
            c' == if c.index < |c.chain| && !c.launchRetried then c.(launchRetried := true, relaunches := c.relaunches + 1)
                  else if c.index + 1 < |c.chain| && c.firstRetried then c.(index := c.index + 1, relaunches := c.relaunches + 1)
                  else c.(phase := Ended)
  {
  }

  /** A browser that can decode nothing itself can only use the native media rungs. */
  predicate Usable(rung: string, reason: Reason) {
    reason.DecoderUnsupported? ==> IsMedia(rung)
  }

  // ----- The object -----------------------------------------------------------------------------

  class App {
    var phase: Phase
    var transportChain: seq<string>
    var transportIndex: nat
    var launchRetried: bool
    var firstTransportRetried: bool
    var relaunches: nat

    function Now(): Client
      reads this
    {
      Client(phase, transportChain, transportIndex, launchRetried, firstTransportRetried, relaunches)
    }

    constructor (chain: seq<string>, index: nat)
      ensures Now() == Client(Live, chain, index, false, false, 0) && Fresh(Now())
    {
      phase, transportChain, transportIndex, launchRetried, firstTransportRetried, relaunches := Live, chain, index, false, false, 0;
    }

    method RelaunchTransport(next: nat)
      modifies this
      ensures Now() == Relaunch(old(Now()), next)
    {
      phase := Launching;
      transportIndex := next;
      relaunches := relaunches + 1;
    }

    method OnTransportFailed(reason: Reason)
      modifies this
      ensures Now() == Fail(old(Now()), reason)
    {
      var cur := transportIndex;
      if reason == LaunchFailed {
        var exhausted := cur >= |transportChain|;
        if exhausted || launchRetried {
          if !exhausted && firstTransportRetried && cur + 1 < |transportChain| {
            RelaunchTransport(cur + 1);
          } else {
            phase := Ended;
          }
          return;
        }
        launchRetried := true;
        RelaunchTransport(cur);
        return;
      }
      if reason == IdentityRefused {
        phase := Ended;
        return;
      }
      if cur == 0 && reason == IceTimeout { firstTransportRetried := true; }
      if cur == 0 && !firstTransportRetried && reason != DecoderUnsupported && reason != IceTimeout {
        firstTransportRetried := true;
        RelaunchTransport(0);
        return;
      }
      var next := cur + 1;
      if reason == DecoderUnsupported {
        while next < |transportChain| && !IsMedia(transportChain[next])
          invariant cur + 1 <= next
          invariant cur + 1 <= |transportChain| ==>
                      next <= |transportChain| && NextMedia(transportChain, cur + 1) == NextMedia(transportChain, next)
          invariant cur + 1 > |transportChain| ==> next == cur + 1
          decreases |transportChain| - next
        {
          next := next + 1;
        }
      }
      if next < |transportChain| {
        RelaunchTransport(next);
      } else {
        phase := Ended;
      }
    }

    method OnEvent(e: Event)
      modifies this
      ensures Now() == Step(old(Now()), e)
    {
      match e {
        case Stopped => phase := Ended;
        case Failure(reason) => if phase == Live && reason != LaunchFailed { OnTransportFailed(reason); }
        case Launched(chain, index) =>
          if phase == Launching {
            launchRetried := false;
            transportChain, transportIndex := chain, index;
            phase := Live;
          }
        case Refused => if phase == Launching { OnTransportFailed(LaunchFailed); }
      }
    }
  }
}
