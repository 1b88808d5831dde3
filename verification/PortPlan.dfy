/**
 Which ports every stream slot listens on: `planSlotPorts` of backend/src/main.cpp, the port rule of
 `SessionPool`, and what the two give once the pool raises the plan to its reserved slots.
 */
module PortPlan {
  import opened Base

  const FOREIGN := 48100        // first port of somebody else
  const CEILING := 24
  const MEDIA_BASE := 48010
  const RESERVED := 5           // two of the owner's, three for players

  type Port16 = p: int | 0 <= p < 0x1_0000

  function U16(x: int): Port16 {
    x % 0x1_0000
  }

  datatype Plan = Plan(extraBase: Port16, maxSlots: int)

  // ----- What a plan promises -------------------------------------------------------------------

  /** Where the block of slots 1.. starts when @p n slots are planned. */
  function ExtraBase(sig: int, media: int, n: int): int {
    Max(sig + 4, media + n)
  }

  /** The ports @p from .. @p to are all below the foreign range, or all past its start. */
  ghost predicate OneSide(from: int, to: int) {
    || (forall p :: from <= p <= to ==> !Foreign(p))
    || (forall p :: from <= p <= to ==> Foreign(p))
  }

  predicate Foreign(port: int) {
    port >= FOREIGN
  }

  /** @p n pairs of ports from the extra block on, one more pair than slots 1..n-1 will take. */
  ghost predicate Carries(sig: Port16, media: Port16, n: int) {
    && 1 <= n
    && var base := ExtraBase(sig, media, n);
       OneSide(base, base + 2 * n - 1)
  }

  ghost predicate IsPlan(sig: Port16, media: Port16, ceiling: int, plan: Plan) {
    && (forall n :: plan.maxSlots < n <= ceiling ==> !Carries(sig, media, n))
    && if Carries(sig, media, plan.maxSlots) && plan.maxSlots <= ceiling
       then plan.extraBase == U16(ExtraBase(sig, media, plan.maxSlots))
       else plan == Plan(U16(sig + 4), 1)
  }

  lemma PlanIsUnique(sig: Port16, media: Port16, ceiling: int, p: Plan, q: Plan)
    requires IsPlan(sig, media, ceiling, p) && IsPlan(sig, media, ceiling, q)
    ensures p == q
  {
  }

  /** The two comparisons of the loop decide whether the block stays on one side. */
  lemma CarriesByItsEnds(sig: Port16, media: Port16, n: int)
    requires 1 <= n
    ensures var base := ExtraBase(sig, media, n);
            Carries(sig, media, n) <==> base >= FOREIGN || base + 2 * (n - 1) + 1 < FOREIGN
  {
    var base := ExtraBase(sig, media, n);
    var top := base + 2 * n - 1;
    assert Foreign(base) <==> base >= FOREIGN;
    assert Foreign(top) <==> top >= FOREIGN;
  }

  /** The largest count up to the ceiling, or a single slot when none fits. */
  method PlanSlotPorts(sig: Port16, media: Port16, ceiling: int) returns (plan: Plan)
    ensures IsPlan(sig, media, ceiling, plan)
    ensures 1 <= plan.maxSlots <= Max(1, ceiling)
  {
    hide Carries;
    var n := ceiling;
    while n >= 1
      invariant n <= ceiling
      invariant forall k :: Max(0, n) < k <= ceiling ==> !Carries(sig, media, k)
    {
      var extra := Max(sig + 4, media + n);
      var top := extra + 2 * (n - 1) + 1;
      CarriesByItsEnds(sig, media, n);
      if extra >= FOREIGN || top < FOREIGN {
        return Plan(U16(extra), n);
      }
      n := n - 1;
    }
    return Plan(U16(sig + 4), 1);
  }

  // ----- The ports of the slots -----------------------------------------------------------------

  datatype Use = Signaling | Relay | Control | Media

  /** Only slot 0 carries the control channel. */
  predicate Has(use: Use, slot: nat) {
    use == Control ==> slot == 0
  }

  function SignalingPort(sig: Port16, extraBase: Port16, slot: int): Port16 {
    if slot <= 0 then sig else U16(extraBase + 2 * (slot - 1))
  }

  /** The numbers written into a worker's configuration, where only the signaling port is 16 bits wide. */
  function PortOf(sig: Port16, media: Port16, extraBase: Port16, use: Use, slot: nat): int {
    match use
    case Signaling => SignalingPort(sig, extraBase, slot)
    case Relay => SignalingPort(sig, extraBase, slot) + 1
    case Control => SignalingPort(sig, extraBase, slot) + 2
    case Media => media + slot
  }

  ghost predicate NoneShared(sig: Port16, media: Port16, extraBase: Port16, n: nat) {
    forall u, i: nat, w, j: nat ::
      (i < n && j < n && Has(u, i) && Has(w, j)
       && PortOf(sig, media, extraBase, u, i) == PortOf(sig, media, extraBase, w, j))
      ==> u == w && i == j
  }

  /** None of slot 0's three ports is a media port of the first @p n slots. */
  predicate SlotZeroClear(sig: int, media: int, n: int) {
    sig + 2 < media || media + n <= sig
  }

  /** Two ports each for slots 1 .. n-1, none past 65535. */
  predicate WithinSixteenBits(sig: int, media: int, n: int) {
    ExtraBase(sig, media, n) + 2 * (n - 1) <= 0x1_0000
  }

  /** The first media port that falls on slot 0. */
  function Overlap(sig: int, media: int): int {
    Max(0, sig - media)
  }

  lemma SharedWithSlotZero(sig: Port16, media: Port16, extraBase: Port16, n: nat)
    requires n >= 1 && !SlotZeroClear(sig, media, n)
    ensures !NoneShared(sig, media, extraBase, n)
  {
    var k: nat := Overlap(sig, media);
    var use := if media + k == sig then Signaling else if media + k == sig + 1 then Relay else Control;
    assert PortOf(sig, media, extraBase, use, 0) == PortOf(sig, media, extraBase, Media, k);
  }

  /** Behind both slot 0 and the media block, pairs two apart never meet anything. */
  lemma PairsApart(sig: Port16, media: Port16, base: int, n: nat)
    requires sig + 4 <= base && media + n <= base && base + 2 * (n - 1) <= 0x1_0000
    requires SlotZeroClear(sig, media, n)
    ensures NoneShared(sig, media, U16(base), n)
  {
    forall u, i: nat, w, j: nat | i < n && j < n && Has(u, i) && Has(w, j)
      && PortOf(sig, media, U16(base), u, i) == PortOf(sig, media, U16(base), w, j)
      ensures u == w && i == j
    {
      PairAt(sig, base, n, i);
      PairAt(sig, base, n, j);
    }
  }

  lemma PairAt(sig: Port16, base: int, n: nat, slot: nat)
    requires 4 <= base && base + 2 * (n - 1) <= 0x1_0000 && slot < n
    ensures SignalingPort(sig, U16(base), slot) == if slot == 0 then sig else base + 2 * (slot - 1)
  {
  }

  /** Within 16 bits, no two ports of the planned slots collide exactly when slot 0 is clear of the media block. */
  lemma PlannedPortsAreDistinct(sig: Port16, media: Port16, ceiling: int, plan: Plan)
    requires IsPlan(sig, media, ceiling, plan) && WithinSixteenBits(sig, media, plan.maxSlots)
    ensures NoneShared(sig, media, plan.extraBase, plan.maxSlots) <==> SlotZeroClear(sig, media, plan.maxSlots)
  {
    var n := plan.maxSlots;
    if !SlotZeroClear(sig, media, n) {
      SharedWithSlotZero(sig, media, plan.extraBase, n);
    } else if Carries(sig, media, n) && n <= ceiling {
      PairsApart(sig, media, ExtraBase(sig, media, n), n);
    } else {
      assert n == 1;
    }
  }

  // ----- Away from the foreign range ------------------------------------------------------------

  /** Every port of slots 1 .. n-1 on one side of the foreign range's start. */
  ghost predicate ExtraSlotsClear(sig: Port16, extraBase: Port16, n: int) {
    || (forall slot :: 1 <= slot < n ==> SignalingPort(sig, extraBase, slot) + 1 < FOREIGN)
    || (forall slot :: 1 <= slot < n ==> SignalingPort(sig, extraBase, slot) >= FOREIGN)
  }

  lemma PlannedSlotsStayClear(sig: Port16, media: Port16, ceiling: int, plan: Plan)
    requires IsPlan(sig, media, ceiling, plan) && WithinSixteenBits(sig, media, plan.maxSlots)
    ensures ExtraSlotsClear(sig, plan.extraBase, plan.maxSlots)
  {
    var n := plan.maxSlots;
    if n > 1 {
      CarriesByItsEnds(sig, media, n);
      forall slot | 1 <= slot < n
        ensures SignalingPort(sig, plan.extraBase, slot) == ExtraBase(sig, media, n) + 2 * (slot - 1) {
        PairAt(sig, ExtraBase(sig, media, n), n, slot);
      }
    }
  }

  /**
   The plan asks for room it does not use, a pair beyond the last slot: a count of two or more has all its
   ports clear and is refused all the same exactly when that pair alone reaches the foreign range.
   */
  lemma RefusedThoughClearIff(sig: Port16, media: Port16, n: int)
    requires 2 <= n && WithinSixteenBits(sig, media, n)
    ensures var base := ExtraBase(sig, media, n);
            ExtraSlotsClear(sig, U16(base), n) && !Carries(sig, media, n)
            <==> base + 2 * n - 3 < FOREIGN <= base + 2 * n - 1
  {
    var base := ExtraBase(sig, media, n);
    CarriesByItsEnds(sig, media, n);
    hide Carries;
    forall slot | 1 <= slot < n ensures SignalingPort(sig, U16(base), slot) == base + 2 * (slot - 1) {
      PairAt(sig, base, n, slot);
    }
    assert SignalingPort(sig, U16(base), 1) == base;
    assert SignalingPort(sig, U16(base), n - 1) == base + 2 * (n - 2);
  }

  // ----- The pool as it is started --------------------------------------------------------------

  /** The reserved slots exist whatever the plan says. */
  function PoolSlots(plan: Plan): nat {
    Max(RESERVED, plan.maxSlots)
  }

  /** With the shipped constants the plan is closed-form. */
  lemma ShippedPlan(sig: Port16, plan: Plan)
    requires IsPlan(sig, MEDIA_BASE, CEILING, plan)
    ensures sig < 48049 || 48096 <= sig ==> plan.maxSlots == CEILING
    ensures 48049 <= sig < 48096 ==> plan.maxSlots == Max(1, (48096 - sig) / 2)
    ensures plan.extraBase == U16(Max(sig + 4, MEDIA_BASE + plan.maxSlots))
  {
    hide IsPlan, Carries;
    var n := if sig < 48049 || 48096 <= sig then CEILING else Max(1, (48096 - sig) / 2);
    var e := Max(sig + 4, MEDIA_BASE + n);
    forall k | n < k <= CEILING ensures !Carries(sig, MEDIA_BASE, k) {
      CarriesByItsEnds(sig, MEDIA_BASE, k);
    }
    CarriesByItsEnds(sig, MEDIA_BASE, n);
    assert IsPlan(sig, MEDIA_BASE, CEILING, Plan(U16(e), n)) by { ByDefinition(sig, Plan(U16(e), n)); }
    PlanIsUnique(sig, MEDIA_BASE, CEILING, plan, Plan(U16(e), n));
  }

  /**
   The shipped plan falls short of the largest clear count by exactly one slot for the signaling bases
   48049 .. 48094, and is that count for every other.
   */
  lemma PlanFallsShortIff(sig: Port16, plan: Plan, n: int)
    requires IsPlan(sig, MEDIA_BASE, CEILING, plan) && plan.maxSlots < n <= CEILING
    ensures ExtraSlotsClear(sig, U16(ExtraBase(sig, MEDIA_BASE, n)), n)
       <==> 48049 <= sig <= 48094 && n == plan.maxSlots + 1
  {
    ShippedPlan(sig, plan);
    var base := ExtraBase(sig, MEDIA_BASE, n);
    assert base == sig + 4;
    RefusedThoughClearIff(sig, MEDIA_BASE, n);
    CarriesByItsEnds(sig, MEDIA_BASE, n);
  }

  lemma ByDefinition(sig: Port16, plan: Plan)
    requires forall k :: plan.maxSlots < k <= CEILING ==> !Carries(sig, MEDIA_BASE, k)
    requires 1 <= plan.maxSlots <= CEILING && plan.extraBase == U16(ExtraBase(sig, MEDIA_BASE, plan.maxSlots))
    requires Carries(sig, MEDIA_BASE, plan.maxSlots) || (plan.maxSlots == 1 && plan.extraBase == U16(sig + 4))
    ensures IsPlan(sig, MEDIA_BASE, CEILING, plan)
  {
  }

  /** Every slot the pool can ever hold, reserved ones beyond the plan and 16-bit wrap-around included. */
  lemma PoolPortsAreDistinct(sig: Port16, plan: Plan)
    requires IsPlan(sig, MEDIA_BASE, CEILING, plan)
    ensures NoneShared(sig, MEDIA_BASE, plan.extraBase, PoolSlots(plan))
      <==> SlotZeroClear(sig, MEDIA_BASE, PoolSlots(plan))
  {
    ShippedPlan(sig, plan);
    var n := PoolSlots(plan);
    if !SlotZeroClear(sig, MEDIA_BASE, n) {
      SharedWithSlotZero(sig, MEDIA_BASE, plan.extraBase, n);
    } else {
      hide IsPlan, Carries;
      forall u, i: nat, w, j: nat | i < n && j < n && Has(u, i) && Has(w, j)
        && PortOf(sig, MEDIA_BASE, plan.extraBase, u, i) == PortOf(sig, MEDIA_BASE, plan.extraBase, w, j)
        ensures u == w && i == j
      {
        PoolPair(sig, plan, i);
        PoolPair(sig, plan, j);
      }
    }
  }

  /** Where the pair of a pool slot lands: behind the media block and slot 0, or wrapped to below 46. */
  lemma PoolPair(sig: Port16, plan: Plan, slot: nat)
    requires plan.extraBase == U16(Max(sig + 4, MEDIA_BASE + PoolSlots(plan)))
    requires slot < PoolSlots(plan) <= CEILING
    ensures slot > 0 ==> var p := Max(sig + 4, MEDIA_BASE + PoolSlots(plan)) + 2 * (slot - 1);
                         SignalingPort(sig, plan.extraBase, slot) == if p < 0x1_0000 then p else p - 0x1_0000
  {
  }

  /** The signaling bases for which a pool slot reaches into the foreign range, or wraps out of it. */
  predicate Straddles(sig: int) {
    48089 <= sig <= 48095 || 65488 <= sig <= 65531
  }

  lemma PoolStaysClear(sig: Port16, plan: Plan)
    requires IsPlan(sig, MEDIA_BASE, CEILING, plan)
    ensures ExtraSlotsClear(sig, plan.extraBase, PoolSlots(plan)) <==> !Straddles(sig)
  {
    ShippedPlan(sig, plan);
    hide IsPlan, Carries;
    var n := PoolSlots(plan);
    assert plan.extraBase == U16(Max(sig + 4, MEDIA_BASE + n));
    PoolPair(sig, plan, 1);
    PoolPair(sig, plan, n - 1);
    if !Straddles(sig) {
      forall slot: nat | 1 <= slot < n
        ensures SignalingPort(sig, plan.extraBase, slot)
             == SignalingPort(sig, plan.extraBase, 1) + 2 * (slot - 1) {
        PoolPair(sig, plan, slot);
      }
    }
  }
}
