/**
 The transport chains of backend/src/main.cpp: the codec filter, the owner's chain behind a forced mode,
 the player's chain, and the rungs taken out for a tunnel or for a network that lets no UDP out. The
 priority orders are those of TransportPriorities.
 */
module TransportChain {
  import opened Base

  type Mode = string
  type Chain = seq<Mode>

  datatype Codec = H264 | HEVC | AV1 | Auto

  // ----- Kinds of rungs -------------------------------------------------------------------------

  datatype Kind = MediaTrack | Relay | Udp

  predicate Is(kind: Kind, mode: Mode) {
    match kind
    case MediaTrack => "webrtc-media" <= mode
    case Relay => mode == "wss"
    case Udp => EndsWith(mode, "-udp")
  }

  predicate EndsWith(s: string, suffix: string) {
    |suffix| <= |s| && s[|s| - |suffix|..] == suffix
  }

  function Without(chain: Chain, kind: Kind): Chain {
    if chain == [] then []
    else
      var last := chain[|chain| - 1];
      Without(chain[..|chain| - 1], kind) + if Is(kind, last) then [] else [last]
  }

  lemma {:induction false} WithoutKeeps(chain: Chain, kind: Kind, t: Mode)
    ensures t in Without(chain, kind) <==> t in chain && !Is(kind, t)
  {
    if chain != [] {
      WithoutKeeps(chain[..|chain| - 1], kind, t);
      assert chain == chain[..|chain| - 1] + [chain[|chain| - 1]];
    }
  }

  lemma {:induction false} WithoutJoin(a: Chain, b: Chain, kind: Kind)
    ensures Without(a + b, kind) == Without(a, kind) + Without(b, kind)
  {
    if b == [] {
      assert a + b == a;
    } else {
      assert (a + b)[..|a + b| - 1] == a + b[..|b| - 1];
      WithoutJoin(a, b[..|b| - 1], kind);
    }
  }

  lemma {:induction false} WithoutNone(chain: Chain, kind: Kind)
    requires forall t :: t in chain ==> !Is(kind, t)
    ensures Without(chain, kind) == chain
  {
    if chain != [] {
      WithoutNone(chain[..|chain| - 1], kind);
      assert chain == chain[..|chain| - 1] + [chain[|chain| - 1]];
    }
  }

  lemma {:induction false} WithoutShrinks(chain: Chain, kind: Kind)
    ensures |Without(chain, kind)| <= |chain|
    ensures |Without(chain, kind)| == |chain| ==> Without(chain, kind) == chain
  {
    if chain != [] {
      WithoutShrinks(chain[..|chain| - 1], kind);
      assert chain == chain[..|chain| - 1] + [chain[|chain| - 1]];
    }
  }

  lemma OneMore(chain: Chain, i: nat, kind: Kind)
    requires i < |chain|
    ensures Without(chain[..i + 1], kind)
      == Without(chain[..i], kind) + if Is(kind, chain[i]) then [] else [chain[i]]
  {
    assert chain[..i + 1][..i] == chain[..i];
  }

  // ----- What a chain is ------------------------------------------------------------------------

  /** First position of @p t in @p line; |line| when it is not there. */
  function Rank(line: Chain, t: Mode): (r: nat)
    ensures r <= |line| && (r < |line| ==> line[r] == t) && (forall k :: 0 <= k < r ==> line[k] != t)
  {
    if line == [] || line[0] == t then 0 else 1 + Rank(line[1..], t)
  }

  /** @p chain follows the order of first places in @p line. */
  ghost predicate Rising(line: Chain, chain: Chain) {
    forall i, j :: 0 <= i < j < |chain| ==> Rank(line, chain[i]) < Rank(line, chain[j])
  }

  lemma RisingJoin(line: Chain, a: Chain, b: Chain)
    requires Rising(line, a) && Rising(line, b)
    requires forall s, t :: s in a && t in b ==> Rank(line, s) < Rank(line, t)
    ensures Rising(line, a + b)
  {
  }

  /** @p chain holds exactly @p members, each once, in the order of their first places in @p line. */
  ghost predicate Arranged(chain: Chain, line: Chain, members: iset<Mode>) {
    && (forall t :: t in chain <==> t in members)
    && Rising(line, chain)
  }

  /** A line and a set of members leave no choice. */
  lemma {:induction false} ArrangedIsUnique(c: Chain, d: Chain, line: Chain, members: iset<Mode>)
    requires Arranged(c, line, members) && Arranged(d, line, members)
    ensures c == d
    decreases |c|
  {
    SameMembers(c, d);
    if c != [] {
      var last := c[|c| - 1];
      assert last in c && last in members && d[|d| - 1] in d && d[|d| - 1] in members;
      var i :| 0 <= i < |c| && c[i] == d[|d| - 1];
      var j :| 0 <= j < |d| && d[j] == last;
      assert i == |c| - 1;
      ButLast(c, line, members);
      ButLast(d, line, members);
      ArrangedIsUnique(c[..|c| - 1], d[..|d| - 1], line, members - iset{last});
      assert c == c[..|c| - 1] + [last] && d == d[..|d| - 1] + [last];
    }
  }

  lemma SameMembers(c: Chain, d: Chain)
    requires forall t :: t in c <==> t in d
    ensures c == [] <==> d == []
  {
    if c != [] { assert c[0] in c; }
    if d != [] { assert d[0] in d; }
  }

  lemma ButLast(c: Chain, line: Chain, members: iset<Mode>)
    requires c != [] && Arranged(c, line, members)
    ensures Arranged(c[..|c| - 1], line, members - iset{c[|c| - 1]})
  {
  }

  ghost function Besides(members: iset<Mode>, kind: Kind): iset<Mode> {
    iset t | t in members && !Is(kind, t)
  }

  lemma {:induction false} WithoutArranged(chain: Chain, line: Chain, members: iset<Mode>, kind: Kind)
    requires Arranged(chain, line, members)
    ensures Arranged(Without(chain, kind), line, Besides(members, kind))
    decreases |chain|
  {
    hide Rank, Is;
    forall t ensures t in Without(chain, kind) <==> t in Besides(members, kind) {
      WithoutKeeps(chain, kind, t);
    }
    if chain != [] {
      var front, last := chain[..|chain| - 1], chain[|chain| - 1];
      ButLast(chain, line, members);
      WithoutArranged(front, line, members - iset{last}, kind);
      forall t | t in Without(front, kind) ensures Rank(line, t) < Rank(line, last) {
        WithoutKeeps(front, kind, t);
        BeforeLast(chain, line, t);
      }
      RisingJoin(line, Without(front, kind), if Is(kind, last) then [] else [last]);
    }
  }

  lemma BeforeLast(chain: Chain, line: Chain, t: Mode)
    requires chain != [] && Rising(line, chain) && t in chain[..|chain| - 1]
    ensures Rank(line, t) < Rank(line, chain[|chain| - 1])
  {
  }

  predicate Once(s: Chain) {
    forall i, j :: 0 <= i < j < |s| ==> s[i] != s[j]
  }

  lemma RankOfOnce(s: Chain, k: nat)
    requires Once(s) && k < |s|
    ensures Rank(s, s[k]) == k
  {
  }

  ghost function Members(s: Chain): iset<Mode> {
    iset t | t in s
  }

  lemma OnceIsArranged(s: Chain)
    requires Once(s)
    ensures Arranged(s, s, Members(s))
  {
  }

  // ----- The codec filter -----------------------------------------------------------------------

  /** The codec that will be streamed is one the host has and a MediaTrack cannot carry. */
  predicate BeyondH264(codec: Codec, host: set<Codec>) {
    (HEVC in host && (codec == HEVC || codec == Auto)) || (AV1 in host && codec == AV1)
  }

  predicate Supports(host: set<Codec>, codec: Codec) {
    codec == Auto || codec in host
  }

  function Playable(order: Chain, codec: Codec, host: set<Codec>): Chain {
    if BeyondH264(codec, host) then Without(order, MediaTrack) else order
  }

  method FilterTransportsByCodec(transports: Chain, codec: Codec, host: set<Codec>) returns (result: Chain)
    ensures result == Playable(transports, codec, host)
  {
    var effective := codec;
    if effective == Auto {
      effective := if Supports(host, HEVC) then HEVC else H264;
    }
    if !Supports(host, effective) {
      if Supports(host, H264) {
        effective := H264;
      } else {
        return transports;
      }
    }
    result := [];
    for i := 0 to |transports|
      invariant effective == HEVC || effective == AV1 <==> BeyondH264(codec, host)
      invariant result == if BeyondH264(codec, host) then Without(transports[..i], MediaTrack) else transports[..i]
    {
      OneMore(transports, i, MediaTrack);
      assert transports[..i + 1] == transports[..i] + [transports[i]];
      if (effective == AV1 || effective == HEVC) && Is(MediaTrack, transports[i]) {
        continue;
      }
      result := result + [transports[i]];
    }
    assert transports[..|transports|] == transports;
  }

  /**
   The rungs left for a codec: all of them, in their order, unless HEVC or AV1 will be streamed, by name or, for
   HEVC, by default, on a host that has it; then all but the MediaTrack ones.
   */
  lemma PlayableIs(order: Chain, codec: Codec, host: set<Codec>)
    requires Once(order)
    ensures var beyond := (AV1 in host && codec == AV1) || (HEVC in host && (codec == HEVC || codec == Auto));
            && (!beyond ==> Playable(order, codec, host) == order)
            && (beyond ==> Arranged(Playable(order, codec, host), order, iset t | t in order && !("webrtc-media" <= t)))
  {
    OnceIsArranged(order);
    WithoutArranged(order, order, Members(order), MediaTrack);
    assert Besides(Members(order), MediaTrack) == iset t | t in order && !("webrtc-media" <= t);
    hide Arranged, Without;
  }

  // ----- Taken out of a chain -------------------------------------------------------------------

  /** A browser beyond the LAN whose network lets no UDP out. */
  datatype Way = Way(viaTunnel: bool, fromInternet: bool, udpBlocked: bool) {
    predicate SkipsUdp() {
      udpBlocked && (viaTunnel || fromInternet)
    }
  }

  function UdpDropped(chain: Chain, way: Way): (r: Chain)
    ensures r == [] <==> chain == []
    ensures var skips := way.udpBlocked && (way.viaTunnel || way.fromInternet);
            if skips && exists t :: t in chain && !Is(Udp, t) then forall t :: t in r <==> t in chain && !Is(Udp, t) else r == chain
  {
    var kept := Without(chain, Udp);
    assert forall t :: t in kept <==> t in chain && !Is(Udp, t) by {
      forall t ensures t in kept <==> t in chain && !Is(Udp, t) {
        WithoutKeeps(chain, Udp, t);
      }
    }
    assert kept != [] ==> kept[0] in kept;
    if way.SkipsUdp() && kept != [] then kept else chain
  }

  method DropUdpRungsWhenBlocked(chain: Chain, way: Way) returns (r: Chain)
    ensures r == UdpDropped(chain, way)
  {
    if !way.udpBlocked { return chain; }
    if !way.viaTunnel && !way.fromInternet { return chain; }
    var kept: Chain := [];
    for i := 0 to |chain|
      invariant kept == Without(chain[..i], Udp)
    {
      OneMore(chain, i, Udp);
      if !Is(Udp, chain[i]) { kept := kept + [chain[i]]; }
    }
    assert chain[..|chain|] == chain;
    WithoutShrinks(chain, Udp);
    if kept == [] || |kept| == |chain| { return chain; }
    return kept;
  }

  function Reachable(chain: Chain, way: Way): Chain {
    UdpDropped(if way.viaTunnel then Without(chain, Relay) else chain, way)
  }

  /** What is left of @p members for a browser reached @p way. */
  ghost function Left(members: iset<Mode>, way: Way): iset<Mode> {
    var open := if way.viaTunnel then Besides(members, Relay) else members;
    if way.udpBlocked && (way.viaTunnel || way.fromInternet) && (exists t :: t in open && !Is(Udp, t)) then Besides(open, Udp) else open
  }

  lemma ReachableArranged(chain: Chain, line: Chain, members: iset<Mode>, way: Way)
    requires Arranged(chain, line, members)
    ensures Arranged(Reachable(chain, way), line, Left(members, way))
  {
    hide Rank, Is, Arranged, UdpDropped;
    WithoutArranged(chain, line, members, Relay);
    UdpDroppedArranged(if way.viaTunnel then Without(chain, Relay) else chain, line,
                       if way.viaTunnel then Besides(members, Relay) else members, way);
  }

  lemma UdpDroppedArranged(chain: Chain, line: Chain, members: iset<Mode>, way: Way)
    requires Arranged(chain, line, members)
    ensures Arranged(UdpDropped(chain, way), line,
                     if way.SkipsUdp() && (exists t :: t in members && !Is(Udp, t)) then Besides(members, Udp) else members)
  {
    hide Rank, Is;
    WithoutArranged(chain, line, members, Udp);
    var kept := Without(chain, Udp);
    assert (exists t :: t in members && !Is(Udp, t)) <==> kept != [] by {
      assert kept != [] ==> kept[0] in kept;
      forall t ensures t in kept <==> t in members && !Is(Udp, t) {
        WithoutKeeps(chain, Udp, t);
      }
    }
  }

  // ----- The owner's chain ----------------------------------------------------------------------

  /** The same family over TCP, for a mode over UDP; empty for any other. */
  function Sibling(mode: Mode): Mode {
    if EndsWith(mode, "-udp") then mode[..|mode| - 4] + "-tcp" else ""
  }

  function Head(mode: Mode, order: Chain): Chain {
    [mode] + if Sibling(mode) != "" && Sibling(mode) in order then [Sibling(mode)] else []
  }

  /** @p order without the two modes that went first. */
  function Behind(order: Chain, first: Mode, second: Mode): Chain {
    if order == [] then []
    else
      var last := order[|order| - 1];
      Behind(order[..|order| - 1], first, second) + if last == first || last == second then [] else [last]
  }

  function Ordered(mode: Mode, order: Chain): Chain {
    if mode == "auto" then order else Head(mode, order) + Behind(order, mode, Sibling(mode))
  }

  method OwnerChain(order: Chain, mode: Mode, codec: Codec, host: set<Codec>, way: Way)
    returns (chain: Chain, dropped: Option<Mode>)
    ensures chain == Reachable(Ordered(mode, Playable(order, codec, host)), way)
    ensures dropped.Some? <==> way.viaTunnel && mode == "wss"
    ensures dropped.Some? ==> dropped.value == mode && mode !in chain
  {
    var autoOrder := FilterTransportsByCodec(order, codec, host);
    if mode == "auto" {
      chain := autoOrder;
    } else {
      chain := [mode];
      var sibling := "";
      if EndsWith(mode, "-udp") {
        sibling := mode[..|mode| - 4] + "-tcp";
      }
      if sibling != "" && sibling in autoOrder {
        chain := chain + [sibling];
      }
      for i := 0 to |autoOrder|
        invariant chain == Head(mode, autoOrder) + Behind(autoOrder[..i], mode, sibling)
      {
        assert autoOrder[..i + 1][..i] == autoOrder[..i];
        if autoOrder[i] != mode && autoOrder[i] != sibling {
          chain := chain + [autoOrder[i]];
        }
      }
      assert autoOrder[..|autoOrder|] == autoOrder;
    }
    assert mode == "wss" ==> chain[0] == mode;
    dropped := None;
    ghost var all := chain;
    if way.viaTunnel && "wss" in chain {
      chain := RemoveAll(chain);
      if mode == "wss" {
        dropped := Some("wss");
      }
    } else if way.viaTunnel {
      forall t | t in chain ensures !Is(Relay, t) { }
      WithoutNone(chain, Relay);
    }
    WithoutKeeps(all, Relay, "wss");
    chain := DropUdpRungsWhenBlocked(chain, way);
  }

  method RemoveAll(chain: Chain) returns (kept: Chain)
    ensures kept == Without(chain, Relay)
  {
    kept := [];
    for i := 0 to |chain|
      invariant kept == Without(chain[..i], Relay)
    {
      OneMore(chain, i, Relay);
      if chain[i] != "wss" { kept := kept + [chain[i]]; }
    }
    assert chain[..|chain|] == chain;
  }

  /** Where the order of the owner's rungs is read off: the forced mode and its sibling, then the priorities. */
  function Line(mode: Mode, order: Chain): Chain {
    if mode == "auto" then order else Head(mode, order) + order
  }

  ghost function Asked(mode: Mode, order: Chain): iset<Mode> {
    if mode == "auto" then Members(order) else Members(order) + iset{mode}
  }

  lemma SiblingIsAnother(mode: Mode)
    ensures Sibling(mode) != mode || mode == ""
  {
  }

  lemma {:induction false} BehindKeeps(order: Chain, a: Mode, b: Mode, t: Mode)
    ensures t in Behind(order, a, b) <==> t in order && t != a && t != b
  {
    if order != [] {
      BehindKeeps(order[..|order| - 1], a, b, t);
      assert order == order[..|order| - 1] + [order[|order| - 1]];
    }
  }

  /** Where a rung of the priorities stands once the head is put before them. */
  lemma {:induction false} RankBehind(head: Chain, order: Chain, t: Mode)
    requires t !in head
    ensures Rank(head + order, t) == |head| + Rank(order, t)
  {
    if head == [] {
      assert head + order == order;
    } else {
      assert (head + order)[1..] == head[1..] + order;
      RankBehind(head[1..], order, t);
    }
  }

  lemma {:induction false} BehindInOrder(order: Chain, n: nat, a: Mode, b: Mode)
    requires Once(order) && n <= |order|
    ensures Rising(order, Behind(order[..n], a, b))
    ensures forall t :: t in Behind(order[..n], a, b) ==> Rank(order, t) < n
    decreases n
  {
    hide Rank;
    if n > 0 {
      BehindInOrder(order, n - 1, a, b);
      RankOfOnce(order, n - 1);
      var r, front, last := Behind(order[..n], a, b), Behind(order[..n - 1], a, b), order[n - 1];
      assert order[..n][..n - 1] == order[..n - 1];
      RisingJoin(order, front, if last == a || last == b then [] else [last]);
    }
  }

  lemma OrderedArranged(mode: Mode, order: Chain)
    requires Once(order) && "" !in order
    ensures Arranged(Ordered(mode, order), Line(mode, order), Asked(mode, order))
  {
    if mode == "auto" {
      OnceIsArranged(order);
    } else {
      hide Rank, Head, Behind, Sibling;
      OrderedHolds(mode, order);
      OrderedInLine(mode, order);
    }
  }

  lemma OrderedHolds(mode: Mode, order: Chain)
    requires "" !in order
    ensures forall t :: t in Ordered(mode, order) <==> t in Asked(mode, order)
  {
    hide Sibling, Behind;
    forall t ensures t in Ordered(mode, order) <==> t in Asked(mode, order) {
      BehindKeeps(order, mode, Sibling(mode), t);
    }
  }

  lemma OrderedInLine(mode: Mode, order: Chain)
    requires Once(order) && "" !in order && mode != "auto"
    ensures Rising(Line(mode, order), Ordered(mode, order))
  {
    hide Rank, Behind, Sibling;
    var head, sibling := Head(mode, order), Sibling(mode);
    var c, line, rest := Ordered(mode, order), Line(mode, order), Behind(order, mode, sibling);
    SiblingIsAnother(mode);
    HeadRank(mode, order);
    BehindInOrder(order, |order|, mode, sibling);
    assert order[..|order|] == order;
    forall t | t in rest ensures Rank(line, t) == |head| + Rank(order, t) {
      BehindKeeps(order, mode, sibling, t);
      RankBehind(head, order, t);
    }
    RisingBy(line, order, rest, |head|);
    RisingJoin(line, head, rest);
  }

  lemma RisingBy(line: Chain, order: Chain, rest: Chain, shift: nat)
    requires Rising(order, rest) && forall t :: t in rest ==> Rank(line, t) == shift + Rank(order, t)
    ensures Rising(line, rest)
  {
  }

  lemma HeadRank(mode: Mode, order: Chain)
    ensures Rank(Head(mode, order) + order, mode) == 0
    ensures |Head(mode, order)| == 2 ==> Rank(Head(mode, order) + order, Sibling(mode)) <= 1
    ensures |Head(mode, order)| == 2 && Sibling(mode) != mode
      ==> Rank(Head(mode, order) + order, Sibling(mode)) == 1
  {
  }

  /**
   No rung twice, the priorities kept behind the forced mode and its sibling, nothing dropped but what
   the way to the browser rules out. ArrangedIsUnique makes this the whole chain.
   */
  lemma OwnerChainIsArranged(order: Chain, mode: Mode, codec: Codec, host: set<Codec>, way: Way)
    requires Once(order) && "" !in order
    ensures var able := Playable(order, codec, host);
            Arranged(Reachable(Ordered(mode, able), way), Line(mode, able), Left(Asked(mode, able), way))
  {
    PlayableOnce(order, codec, host);
    var able := Playable(order, codec, host);
    OrderedArranged(mode, able);
    ReachableArranged(Ordered(mode, able), Line(mode, able), Asked(mode, able), way);
  }

  /** A forced mode over UDP goes first, then the same family over TCP where that is in the order. */
  lemma ForcedUdpLeads(base: string, order: Chain)
    ensures var chain := Ordered(base + "-udp", order);
            && |chain| >= 1 && chain[0] == base + "-udp"
            && (base + "-tcp" in order ==> |chain| >= 2 && chain[1] == base + "-tcp")
            && forall t :: t in chain <==> t in order || t == base + "-udp"
  {
    var udp, tcp := base + "-udp", base + "-tcp";
    assert udp[|udp| - 4..] == "-udp" && udp[..|udp| - 4] == base && udp[|udp| - 1] == 'p';
    assert Sibling(udp) == tcp && tcp[|base|] == '-';
    forall t ensures t in Behind(order, udp, tcp) <==> t in order && t != udp && t != tcp {
      BehindKeeps(order, udp, tcp, t);
    }
    hide Behind;
  }

  /** Any other forced mode goes alone before the rest. */
  lemma ForcedModeLeads(mode: Mode, order: Chain)
    requires mode != "auto" && (|mode| < 4 || mode[|mode| - 4..] != "-udp") && "" !in order
    ensures Ordered(mode, order) == [mode] + Behind(order, mode, mode)
  {
    AloneBehind(mode, order);
  }

  lemma {:induction false} AloneBehind(mode: Mode, order: Chain)
    requires "" !in order
    ensures Behind(order, mode, "") == Behind(order, mode, mode)
  {
    if order != [] {
      assert order[|order| - 1] in order && forall t :: t in order[..|order| - 1] ==> t in order;
      AloneBehind(mode, order[..|order| - 1]);
    }
  }

  lemma PlayableOnce(order: Chain, codec: Codec, host: set<Codec>)
    requires Once(order) && "" !in order
    ensures Once(Playable(order, codec, host)) && "" !in Playable(order, codec, host)
  {
    OnceIsArranged(order);
    WithoutArranged(order, order, Members(order), MediaTrack);
    WithoutKeeps(order, MediaTrack, "");
  }

  // ----- A player's chain -----------------------------------------------------------------------

  function PlayerRungs(order: Chain, codec: Codec, host: set<Codec>, way: Way): Chain {
    Reachable(Playable(order, codec, host), way)
  }

  datatype Pick = Rung(mode: Mode) | NoUsableTransport | NoTransport

  /** Only Auto and the H.264 fallback are ever asked for; an index past the end has walked every rung. */
  method PlayerTransport(order: Chain, h264: bool, host: set<Codec>, way: Way, index: nat) returns (pick: Pick)
    ensures var chain := PlayerRungs(order, if h264 then H264 else Auto, host, way);
            pick == if chain == [] then NoUsableTransport
                    else if index < |chain| then Rung(chain[index]) else NoTransport
  {
    var chain := FilterTransportsByCodec(order, if h264 then H264 else Auto, host);
    if way.viaTunnel {
      chain := RemoveAll(chain);
    }
    chain := DropUdpRungsWhenBlocked(chain, way);
    if chain == [] {
      return NoUsableTransport;
    }
    if index >= |chain| {
      return NoTransport;
    }
    return Rung(chain[index]);
  }

  /** @p order is @p canvas, none of it MediaTrack, and then MediaTrack rungs only. */
  predicate MediaLast(order: Chain, canvas: Chain) {
    && canvas <= order
    && (forall t :: t in canvas ==> !Is(MediaTrack, t))
    && forall t :: t in order[|canvas|..] ==> Is(MediaTrack, t)
  }

  /** The way takes UDP out, all the canvas rungs left are UDP, and a MediaTrack rung is not. */
  ghost predicate LosesUdpOnlyWithMedia(order: Chain, canvas: Chain, host: set<Codec>, way: Way) {
    && HEVC in host && way.SkipsUdp()
    && var left := if way.viaTunnel then Besides(Members(canvas), Relay) else Members(canvas);
       && (exists t :: t in left) && (forall t :: t in left ==> Is(Udp, t))
       && exists t :: t in order && Is(MediaTrack, t) && !Is(Udp, t)
  }

  lemma {:induction false} WithoutAll(chain: Chain, kind: Kind)
    requires forall t :: t in chain ==> Is(kind, t)
    ensures Without(chain, kind) == []
  {
    if chain != [] {
      WithoutAll(chain[..|chain| - 1], kind);
      assert chain[|chain| - 1] in chain;
    }
  }

  lemma CanvasOnly(order: Chain, canvas: Chain)
    requires MediaLast(order, canvas)
    ensures Without(order, MediaTrack) == canvas
  {
    assert order == canvas + order[|canvas|..];
    WithoutJoin(canvas, order[|canvas|..], MediaTrack);
    WithoutNone(canvas, MediaTrack);
    WithoutAll(order[|canvas|..], MediaTrack);
  }

  /** One index names the same transport in a player's Auto and H.264 chains, except where stated. */
  lemma AutoIsPrefixOfH264(order: Chain, canvas: Chain, host: set<Codec>, way: Way)
    requires MediaLast(order, canvas)
    ensures PlayerRungs(order, Auto, host, way) <= PlayerRungs(order, H264, host, way)
      <==> !LosesUdpOnlyWithMedia(order, canvas, host, way)
  {
    hide Is;
    CanvasOnly(order, canvas);
    if HEVC in host {
      CutShort(order, canvas, way);
      SameLeft(canvas, way);
      MediaIsTheRest(order, canvas);
    }
  }

  lemma CutShort(order: Chain, canvas: Chain, way: Way)
    requires MediaLast(order, canvas)
    ensures var c, media := if way.viaTunnel then Without(canvas, Relay) else canvas, order[|canvas|..];
            Reachable(canvas, way) <= Reachable(order, way) <==>
            !(way.SkipsUdp() && c != [] && (forall t :: t in c ==> Is(Udp, t)) && exists t :: t in media && !Is(Udp, t))
  {
    hide Is, UdpDropped;
    var media := order[|canvas|..];
    assert order == canvas + media;
    WithoutJoin(canvas, media, Relay);
    NoRelayAmongMedia(media);
    WithoutNone(media, Relay);
    PrefixAfterDrop(if way.viaTunnel then Without(canvas, Relay) else canvas, media, way);
  }

  lemma NoRelayAmongMedia(media: Chain)
    requires forall t :: t in media ==> Is(MediaTrack, t)
    ensures forall t :: t in media ==> !Is(Relay, t)
  {
  }

  /** Dropping UDP keeps a prefix unless only the longer chain has something left to keep. */
  lemma PrefixAfterDrop(c: Chain, m: Chain, way: Way)
    ensures UdpDropped(c, way) <= UdpDropped(c + m, way)
      <==> !(way.SkipsUdp() && c != [] && (forall t :: t in c ==> Is(Udp, t)) && exists t :: t in m && !Is(Udp, t))
  {
    hide Is;
    WithoutJoin(c, m, Udp);
    var kc, km := Without(c, Udp), Without(m, Udp);
    forall t ensures (t in kc <==> t in c && !Is(Udp, t)) && (t in km <==> t in m && !Is(Udp, t)) {
      WithoutKeeps(c, Udp, t);
      WithoutKeeps(m, Udp, t);
    }
    assert kc != [] ==> kc[0] in kc;
    assert km != [] ==> km[0] in km;
    assert c != [] ==> c[0] in c;
  }

  lemma SameLeft(canvas: Chain, way: Way)
    ensures var c := if way.viaTunnel then Without(canvas, Relay) else canvas;
            var left := if way.viaTunnel then Besides(Members(canvas), Relay) else Members(canvas);
            && (forall t :: t in c <==> t in left) && (c != [] <==> exists t :: t in left)
  {
    hide Is;
    forall t ensures t in Without(canvas, Relay) <==> t in canvas && !Is(Relay, t) {
      WithoutKeeps(canvas, Relay, t);
    }
    var c := if way.viaTunnel then Without(canvas, Relay) else canvas;
    assert c != [] ==> c[0] in c;
  }

  lemma MediaIsTheRest(order: Chain, canvas: Chain)
    requires MediaLast(order, canvas)
    ensures forall t :: t in order[|canvas|..] <==> t in order && Is(MediaTrack, t)
  {
  }

  /** Why a player always gets the order with MediaTrack last: no other order gives a prefix on a HEVC host. */
  lemma PrefixNeedsMediaLast(order: Chain, host: set<Codec>, way: Way)
    requires HEVC in host && !way.viaTunnel && !way.SkipsUdp()
    ensures PlayerRungs(order, Auto, host, way) <= PlayerRungs(order, H264, host, way)
      <==> MediaLast(order, Without(order, MediaTrack))
  {
    hide Is;
    var c := Without(order, MediaTrack);
    forall t ensures t in c <==> t in order && !Is(MediaTrack, t) {
      WithoutKeeps(order, MediaTrack, t);
    }
    if c <= order {
      var rest := order[|c|..];
      assert order == c + rest;
      WithoutJoin(c, rest, MediaTrack);
      WithoutNone(c, MediaTrack);
      assert Without(rest, MediaTrack) == [];
      forall t | t in rest ensures Is(MediaTrack, t) {
        WithoutKeeps(rest, MediaTrack, t);
      }
    }
  }

  // ----- The shipped priorities -----------------------------------------------------------------

  function OrderedTransports(videoEnhancement: bool): Chain {
    if videoEnhancement
    then ["webrtc-dc-udp", "webrtc-dc-tcp", "wss", "webrtc-media-udp", "webrtc-media-tcp"]
    else ["webrtc-dc-udp", "webrtc-dc-tcp", "webrtc-media-udp", "webrtc-media-tcp", "wss"]
  }

  lemma ShippedOrders(videoEnhancement: bool)
    ensures Once(OrderedTransports(videoEnhancement)) && "" !in OrderedTransports(videoEnhancement)
    ensures "webrtc-dc-tcp" in OrderedTransports(videoEnhancement)
    ensures MediaLast(OrderedTransports(true), ["webrtc-dc-udp", "webrtc-dc-tcp", "wss"])
  {
    assert OrderedTransports(true)[3..] == ["webrtc-media-udp", "webrtc-media-tcp"];
    assert "webrtc-media-udp"[..12] == "webrtc-media" == "webrtc-media-tcp"[..12];
    assert "webrtc-dc-udp"[7] == 'd' == "webrtc-dc-tcp"[7];
  }

  /** Of the shipped rungs these are the MediaTrack, the relayed and the UDP ones. */
  lemma ShippedKinds(t: Mode)
    requires t in OrderedTransports(true)
    ensures Is(MediaTrack, t) <==> t == "webrtc-media-udp" || t == "webrtc-media-tcp"
    ensures Is(Relay, t) <==> t == "wss"
    ensures Is(Udp, t) <==> t == "webrtc-dc-udp" || t == "webrtc-media-udp"
  {
    assert "webrtc-media-udp"[..12] == "webrtc-media" == "webrtc-media-tcp"[..12];
    assert "webrtc-dc-udp"[7] == 'd' == "webrtc-dc-tcp"[7];
    if |t| >= 4 { LastFour(t); }
  }

  lemma LastFour(t: Mode)
    requires |t| >= 4
    ensures t[|t| - 4..] == [t[|t| - 4], t[|t| - 3], t[|t| - 2], t[|t| - 1]]
  {
  }

  lemma DataChannelTcpIsPlain()
    ensures var dc := "webrtc-dc-tcp";
            !Is(MediaTrack, dc) && !Is(Relay, dc) && !Is(Udp, dc)
  {
    var dc := "webrtc-dc-tcp";
    assert dc[7] == 'd';
    assert dc[|dc| - 4..][1] == 't';
  }

  /** Whatever is asked for and however the browser is reached, DataChannel over TCP is left to try. */
  lemma OwnerAlwaysHasTcp(videoEnhancement: bool, mode: Mode, codec: Codec, host: set<Codec>, way: Way)
    ensures "webrtc-dc-tcp" in Reachable(Ordered(mode, Playable(OrderedTransports(videoEnhancement), codec, host)), way)
  {
    var order := OrderedTransports(videoEnhancement);
    ShippedOrders(videoEnhancement);
    DataChannelTcpIsPlain();
    hide Is, OrderedTransports;
    var able := Playable(order, codec, host);
    WithoutKeeps(order, MediaTrack, "webrtc-dc-tcp");
    PlayableOnce(order, codec, host);
    OrderedArranged(mode, able);
    assert "webrtc-dc-tcp" in Ordered(mode, able);
    WithoutKeeps(Ordered(mode, able), Relay, "webrtc-dc-tcp");
  }

  /** Shipped, a player's two chains agree on every index of the shorter. */
  lemma PlayerIndexNamesOneTransport(host: set<Codec>, way: Way)
    ensures PlayerRungs(OrderedTransports(true), Auto, host, way) <= PlayerRungs(OrderedTransports(true), H264, host, way)
  {
    var canvas := ["webrtc-dc-udp", "webrtc-dc-tcp", "wss"];
    ShippedOrders(true);
    DataChannelTcpIsPlain();
    hide Is, OrderedTransports;
    assert canvas[1] in canvas;
    AutoIsPrefixOfH264(OrderedTransports(true), canvas, host, way);
  }
}
