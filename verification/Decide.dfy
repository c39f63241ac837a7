/** The four trigger predicates: re-center, limit refresh, seed deployment and fold. */
module Decide {
  import opened Wrappers
  import opened Ticks

  /** Why a trigger fired or did not, as far as the log distinguishes it. */
  datatype Reason =
    | Outside
    | Drift(drift: int, threshold: int)
    | InRange(drift: int, threshold: int)
    | Seed
    | Stranded(away: int)
    | Mixed
    | Quiet

  datatype Trigger = Trigger(fires: bool, reason: Reason)

  function ShouldRebalance(spot: int, base: Band, spacing: int, thresholdMult: int): Trigger
  {
    var mid := TruncDiv(base.lower + base.upper, 2);
    var outside := spot < base.lower || spot > base.upper;
    var drift := Abs(spot - mid);
    var threshold := thresholdMult * spacing;
    var driftTrip := drift > threshold;
    Trigger(outside || driftTrip,
      if outside then Outside else if driftTrip then Drift(drift, threshold) else InRange(drift, threshold))
  }

  function ShouldRefreshLimit(spot: int, limit: Band, liquidity: nat, refreshTicks: int): Trigger
  {
    if liquidity == 0 || limit.upper <= limit.lower then Trigger(false, Quiet)
    else if Away(spot, limit) > refreshTicks then Trigger(true, Stranded(Away(spot, limit)))
    else Trigger(false, Quiet)
  }

  function ShouldDeploySeed(baseLiquidity: nat, limitLiquidity: nat, totalSupply: nat): Trigger
  {
    if totalSupply == 0 then Trigger(false, Quiet)
    else if baseLiquidity > 0 || limitLiquidity > 0 then Trigger(false, Quiet)
    else Trigger(true, Seed)
  }

  /** Both legs of the limit position, valued in token1. */
  datatype Legs = Legs(value0: real, value1: real)

  function ShouldFold(legs: Legs, liquidity: nat, nav: Option<real>, minShare: real, minLimitShare: real): Trigger
  {
    var lv := legs.value0 + legs.value1;
    if liquidity == 0 || lv <= 0.0 then Trigger(false, Quiet)
    else if Least(legs.value0, legs.value1) / lv < minShare then Trigger(false, Quiet)
    else if nav.Some? && nav.value > 0.0 && lv / nav.value < minLimitShare then Trigger(false, Quiet)
    else Trigger(true, Mixed)
  }

  /** What the keeper really does: the composition test first, and the vault's value only when that
      passed and a floor is configured. */
  function FoldInTwoReads(legs: Legs, liquidity: nat, nav: real, minShare: real, minLimitShare: real): Trigger
  {
    var first := ShouldFold(legs, liquidity, None, minShare, minLimitShare);
    if first.fires && minLimitShare > 0.0 then ShouldFold(legs, liquidity, Some(nav), minShare, minLimitShare)
    else first
  }

  /** Skipping the second read never changes the answer, whatever the vault is worth. */
  lemma TwoReadsSuffice(legs: Legs, liquidity: nat, nav: real, minShare: real, minLimitShare: real)
    requires 0.0 <= minLimitShare
    ensures FoldInTwoReads(legs, liquidity, nav, minShare, minLimitShare).fires
         == ShouldFold(legs, liquidity, Some(nav), minShare, minLimitShare).fires
  {
    var lv := legs.value0 + legs.value1;
    if lv > 0.0 && nav > 0.0 {
      QuotientPositive(lv, nav);
    }
  }

  lemma QuotientPositive(a: real, b: real)
    requires a > 0.0 && b > 0.0
    ensures a / b > 0.0
  {
    assert (a / b) * b == a;
    ProductSign(a / b, b);
  }

  lemma ProductSign(q: real, b: real)
    requires b > 0.0
    ensures q <= 0.0 ==> q * b <= 0.0
  {
  }

  /** A one-sided limit can never fold: the fold clears its own trigger. */
  lemma OneSidedNeverFolds(legs: Legs, liquidity: nat, nav: Option<real>, minShare: real, minLimitShare: real)
    requires legs.value0 >= 0.0 && legs.value1 >= 0.0
    requires legs.value0 == 0.0 || legs.value1 == 0.0
    requires minShare > 0.0
    ensures !ShouldFold(legs, liquidity, nav, minShare, minLimitShare).fires
  {
    var lv := legs.value0 + legs.value1;
    if lv > 0.0 {
      assert Least(legs.value0, legs.value1) == 0.0;
      assert 0.0 / lv == 0.0;
    }
  }

  /** An idle seed fires: shares are out, and neither position holds anything. */
  lemma SeedFiresExactly(baseLiquidity: nat, limitLiquidity: nat, totalSupply: nat)
    ensures ShouldDeploySeed(baseLiquidity, limitLiquidity, totalSupply).fires
        <==> totalSupply > 0 && baseLiquidity == 0 && limitLiquidity == 0
  {
  }

  /** What is given as the reason is the reason. */
  lemma DriftReasonTells(spot: int, base: Band, spacing: int, thresholdMult: int)
    ensures var t := ShouldRebalance(spot, base, spacing, thresholdMult);
      var off := Abs(spot - TruncDiv(base.lower + base.upper, 2));
      && (t.reason == Outside <==> spot < base.lower || spot > base.upper)
      && (t.reason == Drift(off, thresholdMult * spacing) <==>
            base.lower <= spot <= base.upper && off > thresholdMult * spacing)
      && (t.reason == InRange(off, thresholdMult * spacing) <==> !t.fires)
  {
  }

  lemma OtherReasonsTell(spot: int, limit: Band, liquidity: nat, refreshTicks: int, baseLiquidity: nat,
                         totalSupply: nat, legs: Legs, nav: real, minShare: real, minLimitShare: real)
    ensures var t := ShouldRefreshLimit(spot, limit, liquidity, refreshTicks);
      t.reason == if t.fires then Stranded(Away(spot, limit)) else Quiet
    ensures var t := ShouldDeploySeed(baseLiquidity, liquidity, totalSupply);
      t.reason == if t.fires then Seed else Quiet
    ensures var t := FoldInTwoReads(legs, liquidity, nav, minShare, minLimitShare);
      t.reason == if t.fires then Mixed else Quiet
  {
  }

  lemma ShareIsProduct(part: real, whole: real, share: real)
    requires whole > 0.0
    ensures part / whole < share <==> part < share * whole
  {
    var q := part / whole;
    assert q * whole == part;
    ProductOrder(q, share, whole);
  }

  lemma ProductOrder(a: real, b: real, c: real)
    requires c > 0.0
    ensures a < b <==> a * c < b * c
  {
    assert b * c - a * c == (b - a) * c;
    ProductSign(b - a, c);
    ProductSign(a - b, c);
    if a < b { PositiveProduct(b - a, c); }
  }

  lemma PositiveProduct(a: real, b: real)
    requires a > 0.0 && b > 0.0
    ensures a * b > 0.0
  {
  }

  /** A minted limit folds exactly when each leg holds its share of the limit, and the limit holds its share of
      the vault where the vault is worth anything. */
  lemma FoldsExactly(legs: Legs, liquidity: nat, nav: real, minShare: real, minLimitShare: real)
    requires legs.value0 >= 0.0 && legs.value1 >= 0.0 && legs.value0 + legs.value1 > 0.0 && minLimitShare >= 0.0
    ensures var sum := legs.value0 + legs.value1;
      FoldInTwoReads(legs, liquidity, nav, minShare, minLimitShare).fires <==>
        && liquidity > 0
        && legs.value0 >= minShare * sum && legs.value1 >= minShare * sum
        && (nav > 0.0 ==> sum >= minLimitShare * nav)
  {
    var sum := legs.value0 + legs.value1;
    TwoReadsSuffice(legs, liquidity, nav, minShare, minLimitShare);
    ShareIsProduct(Least(legs.value0, legs.value1), sum, minShare);
    if nav > 0.0 { ShareIsProduct(sum, nav, minLimitShare); }
  }

  lemma ShareHasNoScale(part: real, whole: real, share: real, k: real)
    requires whole > 0.0 && k > 0.0
    ensures k * whole > 0.0
    ensures (k * part) / (k * whole) < share <==> part / whole < share
  {
    PositiveProduct(k, whole);
    ShareIsProduct(part, whole, share);
    ShareIsProduct(k * part, k * whole, share);
    ProductOrder(part, share * whole, k);
    assert share * (k * whole) == (share * whole) * k;
  }

  lemma LeastScales(x: real, y: real, k: real)
    requires k > 0.0
    ensures Least(k * x, k * y) == k * Least(x, y) && k * x + k * y == k * (x + y)
  {
    ProductOrder(x, y, k);
    ProductOrder(y, x, k);
  }

  /** The composition test reads only the mix: it is the same at any scale. */
  lemma MixHasNoScale(legs: Legs, liquidity: nat, minShare: real, k: real)
    requires legs.value0 >= 0.0 && legs.value1 >= 0.0 && k > 0.0
    ensures ShouldFold(Legs(k * legs.value0, k * legs.value1), liquidity, None, minShare, 0.0).fires
        <==> ShouldFold(legs, liquidity, None, minShare, 0.0).fires
  {
    var sum, least := legs.value0 + legs.value1, Least(legs.value0, legs.value1);
    LeastScales(legs.value0, legs.value1, k);
    if sum > 0.0 { ShareHasNoScale(least, sum, minShare, k); } else { assert sum == 0.0; }
  }

  /** Nothing folds without a mint or without anything in it. */
  lemma EmptyNeverFolds(legs: Legs, liquidity: nat, nav: real, minShare: real, minLimitShare: real)
    requires liquidity == 0 || legs.value0 + legs.value1 <= 0.0
    ensures !FoldInTwoReads(legs, liquidity, nav, minShare, minLimitShare).fires
  {
  }

  /** The drift trigger and the translation clamp round a band's middle differently: they disagree,
      by one tick, exactly on bands whose bounds sum to a negative odd number. */
  lemma MidsDiffer(b: Band)
    requires b.lower <= b.upper
    ensures TruncDiv(b.lower + b.upper, 2) - BandMid(b)
         == if b.lower + b.upper < 0 && (b.lower + b.upper) % 2 == 1 then 1 else 0
  {
  }

  /** A band just placed on spot does not ask to be placed again, for any spot tick, exactly when the
      threshold is at least one spacing or the grid is too fine to be off centre. */
  lemma PlacedBandIsQuietExactly(m: int, spacing: int, thresholdMult: int)
    requires spacing > 0 && m >= 0 && thresholdMult >= 0
    ensures (forall t: int :: !ShouldRebalance(t, CenteredBand(t, m, spacing), spacing, thresholdMult).fires)
        <==> thresholdMult >= 1 || spacing <= 2
  {
    if thresholdMult >= 1 || spacing <= 2 {
      forall t: int ensures !ShouldRebalance(t, CenteredBand(t, m, spacing), spacing, thresholdMult).fires {
        PlacedBandIsQuiet(t, m, spacing, thresholdMult);
      }
    } else {
      var t := spacing - 1;
      PlacedBandDrift(t, m, spacing);
      EuclidUnique(t, spacing, 0, t);
      assert ShouldRebalance(t, CenteredBand(t, m, spacing), spacing, thresholdMult).fires;
    }
  }

  lemma PlacedBandIsQuiet(t: int, m: int, spacing: int, thresholdMult: int)
    requires spacing > 0 && m >= 0 && thresholdMult >= 0
    requires thresholdMult >= 1 || spacing <= 2
    ensures !ShouldRebalance(t, CenteredBand(t, m, spacing), spacing, thresholdMult).fires
  {
    PlacedBandDrift(t, m, spacing);
    if thresholdMult >= 1 {
      MultipleBounds(spacing, thresholdMult);
      assert spacing * thresholdMult == thresholdMult * spacing;
    }
  }

  /** The drift of a fresh band, as the trigger measures it. */
  lemma PlacedBandDrift(t: int, m: int, spacing: int)
    requires spacing > 0 && m >= 0
    ensures var b := CenteredBand(t, m, spacing); var r := t % spacing;
      var drift := Abs(t - TruncDiv(b.lower + b.upper, 2));
      && b.lower <= t <= b.upper
      && drift <= (spacing - 1) / 2
      && (t - r >= 0 && r != 0 ==> drift == Abs(r - spacing / 2))
  {
    CenteredBandExact(t, m, spacing);
    var r, half := t % spacing, m * spacing;
    assert half >= 0;
    CellDrift(t - r, r, spacing);
    var b := CenteredBand(t, m, spacing);
    assert b.lower + b.upper == 2 * (t - r) + if r == 0 then 0 else spacing;
  }

  lemma CellDrift(g: int, r: int, spacing: int)
    requires 0 <= r < spacing
    ensures var drift := Abs(g + r - TruncDiv(2 * g + (if r == 0 then 0 else spacing), 2));
      && drift <= (spacing - 1) / 2
      && (g >= 0 && r != 0 ==> drift == Abs(r - spacing / 2))
  {
  }

  /** A freshly placed limit is never stranded, for any tick and side, exactly when the refresh
      distance covers the worst rounding of its placement. */
  lemma PlacedLimitIsQuietExactly(spacing: int, widthMult: int, refreshTicks: int)
    requires spacing > 0 && widthMult > 0
    ensures (forall t: int, side: Side, liq: nat ::
               !ShouldRefreshLimit(t, LimitRange(t, spacing, side, widthMult), liq, refreshTicks).fires)
        <==> refreshTicks >= 2 * spacing - 1
  {
    if refreshTicks >= 2 * spacing - 1 {
      forall t: int, side: Side, liq: nat
        ensures !ShouldRefreshLimit(t, LimitRange(t, spacing, side, widthMult), liq, refreshTicks).fires
      {
        LimitRangeShape(t, spacing, side, widthMult);
      }
    } else {
      WorstPlacement(spacing, widthMult);
      assert ShouldRefreshLimit(1 - spacing, LimitRange(1 - spacing, spacing, Above, widthMult), 1, refreshTicks).fires;
    }
  }

  /** One tick above a negative grid line, rounding toward zero skips almost a whole spacing. */
  lemma WorstPlacement(spacing: int, widthMult: int)
    requires spacing > 0 && widthMult > 0
    ensures var b := LimitRange(1 - spacing, spacing, Above, widthMult);
      b.lower < b.upper && Away(1 - spacing, b) == 2 * spacing - 1
  {
    EuclidUnique(spacing - 1, spacing, 0, spacing - 1);
    assert TruncToSpacing(1 - spacing, spacing) == 0;
    LimitRangeShape(1 - spacing, spacing, Above, widthMult);
  }
}
