/** Splitting route amounts by basis points, exactly, and bounding the slippage of the sum. */
module Amounts {
  import opened Wrappers

  const BPS_DENOMINATOR: nat := 10_000
  const DEFAULT_SLIPPAGE_BPS: u32 := 25

  /** An amount's text as a number, None when it is not one. */
  type Amount = Option<nat>

  function Floor(amount: nat, bps: nat): nat {
    amount * bps / BPS_DENOMINATOR
  }

  function Sum(xs: seq<nat>): nat
    decreases |xs|
  {
    if xs == [] then 0 else Sum(xs[..|xs| - 1]) + xs[|xs| - 1]
  }

  /** Each amount's floor at the same rate. */
  function Floors(amounts: seq<nat>, bps: nat): (floors: seq<nat>)
    ensures |floors| == |amounts|
    ensures forall i :: 0 <= i < |amounts| ==> floors[i] == Floor(amounts[i], bps)
  {
    seq(|amounts|, i requires 0 <= i < |amounts| => Floor(amounts[i], bps))
  }

  // Allocation among the segments of a route.

  /** What the segments before `index` take. */
  function PriorSum(shares: seq<u32>, index: nat, amount: nat): nat
    requires index <= |shares|
  {
    if index == 0 then 0 else PriorSum(shares, index - 1, amount) + Floor(amount, shares[index - 1])
  }

  /** A segment's part of one amount; a zero share takes what the earlier segments left. */
  function SegmentAmount(shares: seq<u32>, index: nat, amount: nat): nat
    requires index < |shares|
  {
    if shares[index] == 0 then
      var prior := PriorSum(shares, index, amount);
      if prior >= amount then 0 else amount - prior
    else Floor(amount, shares[index])
  }

  predicate Allocates(shares: seq<u32>, index: nat, amount: Amount)
    requires index < |shares|
  {
    amount.Some? && SegmentAmount(shares, index, amount.value) > 0
  }

  /** The first amount without an allocation is not a number. */
  predicate InvalidFirst(amounts: seq<Amount>, shares: seq<u32>, index: nat, k: int)
    requires index < |shares|
  {
    && 0 <= k < |amounts| && amounts[k].None?
    && forall j :: 0 <= j < k ==> Allocates(shares, index, amounts[j])
  }

  datatype AllocationError = InvalidAmount

  /**
   `allocate_segment_amounts`: the amounts of one segment, None when one of them would be
   zero, an error at an amount that is not a number.
   */
  method AllocateSegmentAmounts(amounts: seq<Amount>, shares: seq<u32>, index: nat)
    returns (r: Result<Option<seq<Amount>>, AllocationError>)
    ensures index >= |shares| ==> r == Ok(None)
    ensures index < |shares| == 1 ==> r == Ok(Some(amounts))
    ensures index < |shares| && |shares| > 1 ==>
      && (r.Ok? && r.value.Some? <==> forall k :: 0 <= k < |amounts| ==> Allocates(shares, index, amounts[k]))
      && (r.Err? <==> exists k :: InvalidFirst(amounts, shares, index, k))
      && (r.Ok? && r.value.Some? ==>
            && |r.value.value| == |amounts|
            && forall k :: 0 <= k < |amounts| ==>
                 r.value.value[k] == Some(SegmentAmount(shares, index, amounts[k].value)))
  {
    if index >= |shares| {
      return Ok(None);
    }
    if |shares| == 1 {
      return Ok(Some(amounts));
    }
    var parts: seq<Amount> := [];
    for k := 0 to |amounts|
      invariant |parts| == k
      invariant forall j :: 0 <= j < k ==> Allocates(shares, index, amounts[j])
      invariant forall j :: 0 <= j < k ==> parts[j] == Some(SegmentAmount(shares, index, amounts[j].value))
    {
      if amounts[k].None? {
        assert InvalidFirst(amounts, shares, index, k);
        return Err(InvalidAmount);
      }
      var part := SegmentAmount(shares, index, amounts[k].value);
      if part == 0 {
        assert !Allocates(shares, index, amounts[k]);
        return Ok(None);
      }
      parts := parts + [Some(part)];
    }
    return Ok(Some(parts));
  }

  function SegmentAmounts(shares: seq<u32>, amount: nat): (parts: seq<nat>)
    ensures |parts| == |shares|
    ensures forall i :: 0 <= i < |shares| ==> parts[i] == SegmentAmount(shares, i, amount)
  {
    seq(|shares|, i requires 0 <= i < |shares| => SegmentAmount(shares, i, amount))
  }

  /** A route whose only zero share comes last. */
  predicate RemainderLast(shares: seq<u32>) {
    shares != [] && shares[|shares| - 1] == 0 && forall i :: 0 <= i < |shares| - 1 ==> shares[i] > 0
  }

  lemma {:induction false} SharedParts(shares: seq<u32>, amount: nat, n: nat)
    requires n <= |shares|
    requires forall i :: 0 <= i < n ==> shares[i] > 0
    ensures Sum(SegmentAmounts(shares, amount)[..n]) == PriorSum(shares, n, amount)
    decreases n
  {
    var parts := SegmentAmounts(shares, amount);
    if n == 0 {
      assert parts[..0] == [];
    } else {
      SharedParts(shares, amount, n - 1);
      assert parts[..n][..n - 1] == parts[..n - 1];
    }
  }

  /** The parts of a route amount sum to it exactly when the fixed shares do not exceed it. */
  lemma PartsSumExactly(shares: seq<u32>, amount: nat)
    requires RemainderLast(shares)
    ensures Sum(SegmentAmounts(shares, amount)) == amount <==> PriorSum(shares, |shares| - 1, amount) <= amount
  {
    SharedParts(shares, amount, |shares| - 1);
  }

  /** Whenever every segment has an allocation, together they are the route amount. */
  lemma AllocationsSumToRoute(shares: seq<u32>, amount: nat)
    requires RemainderLast(shares)
    requires forall i :: 0 <= i < |shares| ==> Allocates(shares, i, Some(amount))
    ensures Sum(SegmentAmounts(shares, amount)) == amount
  {
    assert Allocates(shares, |shares| - 1, Some(amount));
    PartsSumExactly(shares, amount);
  }

  function ShareSum(shares: seq<u32>, index: nat): nat
    requires index <= |shares|
  {
    if index == 0 then 0 else ShareSum(shares, index - 1) + shares[index - 1]
  }

  lemma {:induction false} FloorsLoseLittle(shares: seq<u32>, index: nat, amount: nat)
    requires index <= |shares|
    ensures PriorSum(shares, index, amount) * BPS_DENOMINATOR <= amount * ShareSum(shares, index)
    ensures amount * ShareSum(shares, index)
         <= PriorSum(shares, index, amount) * BPS_DENOMINATOR + index * (BPS_DENOMINATOR - 1)
  {
    if index > 0 {
      FloorsLoseLittle(shares, index - 1, amount);
      var product := amount * shares[index - 1];
      assert product == product / BPS_DENOMINATOR * BPS_DENOMINATOR + product % BPS_DENOMINATOR;
      Distribute(amount, ShareSum(shares, index - 1), shares[index - 1]);
    }
  }

  lemma Distribute(a: nat, b: nat, c: nat)
    ensures a * (b + c) == a * b + a * c
  {
  }

  /**
   The last segment takes at least its exact share of the route amount and exceeds it by
   less than the number of the other segments (in units of 1/10000).
   */
  lemma LastExceedsLittle(shares: seq<u32>, amount: nat)
    requires RemainderLast(shares) && |shares| > 1
    requires PriorSum(shares, |shares| - 1, amount) <= amount
    ensures var last := SegmentAmount(shares, |shares| - 1, amount);
      var exact: int := amount * (BPS_DENOMINATOR - ShareSum(shares, |shares| - 1));
      0 <= last * BPS_DENOMINATOR - exact < (|shares| - 1) * BPS_DENOMINATOR
  {
    var others := |shares| - 1;
    var prior, taken := PriorSum(shares, others, amount), ShareSum(shares, others);
    FloorsLoseLittle(shares, others, amount);
    assert SegmentAmount(shares, others, amount) == amount - prior;
    assert amount * (BPS_DENOMINATOR - taken) == amount * BPS_DENOMINATOR - amount * taken;
  }

  // Slippage.

  /** `apply_slippage`; text that is not a number counts as zero. */
  function ApplySlippage(amount: Amount, bps: u32): nat {
    if amount.None? then 0 else Floor(amount.value, SaturatingSub(BPS_DENOMINATOR, bps))
  }

  /** `split_amount_by_bps`. */
  function SplitAmountByBps(amount: Amount, bps: u32): nat {
    if amount.None? then 0 else Floor(amount.value, bps)
  }

  /** The two halves of a split lose at most one unit, and none exactly when the split is even. */
  lemma ComplementLosesAtMostOne(amount: nat, bps: u32)
    requires bps <= BPS_DENOMINATOR
    ensures var together := SplitAmountByBps(Some(amount), bps) + ApplySlippage(Some(amount), bps);
      if amount * bps % BPS_DENOMINATOR == 0 then together == amount else together == amount - 1
    ensures SplitAmountByBps(None, bps) == 0 && ApplySlippage(None, bps) == 0
  {
    var part, rest := amount * bps, amount * (BPS_DENOMINATOR - bps);
    assert part + rest == amount * BPS_DENOMINATOR by {
      Distribute(amount, bps, BPS_DENOMINATOR - bps);
    }
  }

  function Value(amount: Amount): nat {
    if amount.Some? then amount.value else 0
  }

  function Values(amounts: seq<Amount>): seq<nat> {
    seq(|amounts|, i requires 0 <= i < |amounts| => Value(amounts[i]))
  }

  /** `route_min_amount_out` over the segments' final amounts. */
  function RouteMinAmountOut(finals: seq<Amount>): nat {
    ApplySlippage(Some(Sum(Values(finals))), DEFAULT_SLIPPAGE_BPS)
  }

  lemma FloorsAdd(x: nat, y: nat, bps: nat)
    ensures Floor(x, bps) + Floor(y, bps) <= Floor(x + y, bps) <= Floor(x, bps) + Floor(y, bps) + 1
  {
    var a, b := x * bps, y * bps;
    assert (x + y) * bps == a + b;
  }

  lemma {:induction false} SumOfFloors(amounts: seq<nat>, bps: nat)
    requires amounts != []
    ensures Sum(Floors(amounts, bps)) <= Floor(Sum(amounts), bps) < Sum(Floors(amounts, bps)) + |amounts|
    decreases |amounts|
  {
    var init, last := amounts[..|amounts| - 1], amounts[|amounts| - 1];
    assert Floors(amounts, bps)[..|amounts| - 1] == Floors(init, bps);
    if init == [] {
      assert Sum(init) == 0 && Sum(Floors(init, bps)) == 0;
    } else {
      SumOfFloors(init, bps);
      FloorsAdd(Sum(init), last, bps);
    }
  }

  function SegmentMinima(finals: seq<Amount>): seq<nat> {
    seq(|finals|, i requires 0 <= i < |finals| => ApplySlippage(finals[i], DEFAULT_SLIPPAGE_BPS))
  }

  /**
   The route minimum is at least the sum of the segments' own minima and exceeds it by less
   than the number of segments.
   */
  lemma RouteMinimumBounded(finals: seq<Amount>)
    requires finals != []
    ensures Sum(SegmentMinima(finals)) <= RouteMinAmountOut(finals) < Sum(SegmentMinima(finals)) + |finals|
  {
    var rate := SaturatingSub(BPS_DENOMINATOR, DEFAULT_SLIPPAGE_BPS);
    assert SegmentMinima(finals) == Floors(Values(finals), rate);
    SumOfFloors(Values(finals), rate);
  }

  /** A rate past the whole leaves nothing. */
  lemma OverfullSlippage(amount: Amount, bps: u32)
    requires bps >= 10_000
    ensures ApplySlippage(amount, bps) == 0
  {
  }

  /** The route minimum gives up a quarter of a percent: 9975 of every 10000. */
  lemma QuarterPercent(tenThousands: nat)
    ensures RouteMinAmountOut([Some(10_000 * tenThousands)]) == 9_975 * tenThousands
  {
    var finals: seq<Amount> := [Some(10_000 * tenThousands)];
    var values := Values(finals);
    assert values == [10_000 * tenThousands] && values[..0] == [];
    assert Sum(values) == Sum(values[..0]) + values[0];
    assert 10_000 * tenThousands * 9_975 == 9_975 * tenThousands * 10_000;
  }
}
