/** Tick arithmetic of the keeper: spacing, bands, the one-sided limit range and the
    per-rebalance translation clamp. Ticks are signed integers; JavaScript's `%` and
    `Math.trunc` round toward zero, which is written out here. */
module Ticks {

  datatype Side = Above | Below

  datatype Band = Band(lower: int, upper: int)

  datatype ClampResult =
    | Clamp(band: Band, clamped: bool)
    | CapNotWorkable

  // --- rounding -----------------------------------------------------------------

  /** `Math.trunc(a / b)` for a positive divisor: rounds toward zero. */
  function TruncDiv(a: int, b: int): int
    requires b > 0
  {
    if a >= 0 then a / b else -((-a) / b)
  }

  /** JavaScript's `a % b` for a positive divisor: takes the sign of `a`. */
  function JsMod(a: int, b: int): int
    requires b > 0
  {
    a - b * TruncDiv(a, b)
  }

  /** The grid: ticks a Uniswap position may use as a bound. */
  predicate Aligned(tick: int, spacing: int)
    requires spacing > 0
  {
    tick % spacing == 0
  }

  function TruncToSpacing(tick: int, spacing: int): int
    requires spacing > 0
  {
    TruncDiv(tick, spacing) * spacing
  }

  function FloorToSpacing(tick: int, spacing: int): int
    requires spacing > 0
  {
    var m := JsMod(tick, spacing);
    var m := if m < 0 then m + spacing else m;
    tick - m
  }

  function CeilToSpacing(tick: int, spacing: int): int
    requires spacing > 0
  {
    var f := FloorToSpacing(tick, spacing);
    if f == tick then f else f + spacing
  }

  function Abs(x: int): int { if x < 0 then -x else x }

  lemma MultipleBounds(b: int, d: int)
    requires b > 0
    ensures d >= 1 ==> b * d >= b
    ensures d <= -1 ==> b * d <= -b
  {
    if d >= 1 { assert b * (d - 1) >= 0; }
    if d <= -1 { assert b * (d + 1) <= 0; }
  }

  lemma EuclidUnique(a: int, b: int, q: int, r: int)
    requires b > 0 && 0 <= r < b && a == b * q + r
    ensures q == a / b && r == a % b
  {
    var d := q - a / b;
    assert b * d == a % b - r by {
      assert a == b * (a / b) + a % b;
      assert b * d == b * q - b * (a / b);
    }
    MultipleBounds(b, d);
  }

  lemma QuotientAtLeast(a: int, b: int, n: int)
    requires b > 0 && a >= b * n
    ensures a / b >= n
  {
    var d := n - a / b;
    assert b * d == b * n - b * (a / b);
    MultipleBounds(b, d);
  }

  /** Moving a tick by whole spacings keeps its offset inside the cell. */
  lemma ShiftKeepsOffset(tick: int, k: int, spacing: int)
    requires spacing > 0
    ensures (tick + k * spacing) % spacing == tick % spacing
  {
    var q, r := tick / spacing, tick % spacing;
    assert tick + k * spacing == spacing * (q + k) + r by {
      assert spacing * (q + k) == spacing * q + k * spacing;
    }
    EuclidUnique(tick + k * spacing, spacing, q + k, r);
  }

  /** The two-sided remainder correction lands on the Euclidean floor, on both sides of zero. */
  lemma FloorIsGridFloor(tick: int, spacing: int)
    requires spacing > 0
    ensures FloorToSpacing(tick, spacing) == tick - tick % spacing
    ensures Aligned(FloorToSpacing(tick, spacing), spacing)
  {
    if tick < 0 {
      var q, r := (-tick) / spacing, (-tick) % spacing;
      assert JsMod(tick, spacing) == -r;
      if r == 0 {
        EuclidUnique(tick, spacing, -q, 0);
      } else {
        assert spacing * (-q - 1) == -(spacing * q) - spacing;
        EuclidUnique(tick, spacing, -q - 1, spacing - r);
      }
    }
    EuclidUnique(tick - tick % spacing, spacing, tick / spacing, 0);
  }

  /** A negative tick's offset in its cell, from that of its mirror image. */
  lemma NegativeOffset(tick: int, spacing: int)
    requires spacing > 0 && tick < 0
    ensures var q, r := (-tick) / spacing, (-tick) % spacing;
      tick == -(spacing * q) - r && tick % spacing == if r == 0 then 0 else spacing - r
  {
    var q, r := (-tick) / spacing, (-tick) % spacing;
    if r == 0 {
      EuclidUnique(tick, spacing, -q, 0);
    } else {
      assert spacing * (-q - 1) == -(spacing * q) - spacing;
      EuclidUnique(tick, spacing, -q - 1, spacing - r);
    }
  }

  /** Truncation goes down above zero and up below it. */
  lemma TruncIsTowardZero(tick: int, spacing: int)
    requires spacing > 0
    ensures Aligned(TruncToSpacing(tick, spacing), spacing)
    ensures TruncToSpacing(tick, spacing)
         == if tick >= 0 then FloorToSpacing(tick, spacing) else CeilToSpacing(tick, spacing)
  {
    FloorIsGridFloor(tick, spacing);
    ShiftKeepsOffset(0, TruncDiv(tick, spacing), spacing);
    if tick < 0 { NegativeOffset(tick, spacing); }
  }

  // --- bands ------------------------------------------------------------------------

  function CenteredBand(tick: int, halfWidthMult: int, spacing: int): Band
    requires spacing > 0
  {
    var half := halfWidthMult * spacing;
    Band(FloorToSpacing(tick - half, spacing), CeilToSpacing(tick + half, spacing))
  }

  function BandMid(b: Band): int
  {
    b.lower + TruncDiv(b.upper - b.lower, 2)
  }

  /** Where a band centred on `tick` really has its midpoint: on the tick when that is on the
      grid, otherwise half a spacing above the grid line below it. */
  function CenterOf(tick: int, spacing: int): int
    requires spacing > 0
  {
    var f := tick - tick % spacing;
    if f == tick then f else f + spacing / 2
  }

  lemma CenteredBandExact(tick: int, m: int, spacing: int)
    requires spacing > 0
    ensures var b := CenteredBand(tick, m, spacing); var r := tick % spacing; var half := m * spacing;
      && b == Band(tick - r - half, tick - r + half + if r == 0 then 0 else spacing)
      && Aligned(b.lower, spacing) && Aligned(b.upper, spacing)
  {
    var half, r := m * spacing, tick % spacing;
    FloorIsGridFloor(tick - half, spacing);
    FloorIsGridFloor(tick + half, spacing);
    assert (tick - half) % spacing == r by {
      ShiftKeepsOffset(tick, -m, spacing);
      assert tick + (-m) * spacing == tick - half;
    }
    ShiftKeepsOffset(tick, m, spacing);
    ShiftKeepsOffset(tick + half - r, 1, spacing);
  }

  /** Everything a caller may assume about a centred band: on the grid, covering the asked-for
      half width on both sides, one of two widths, and centred within half a spacing. */
  lemma CenteredBandShape(tick: int, m: int, spacing: int)
    requires spacing > 0 && m >= 0
    ensures var b := CenteredBand(tick, m, spacing);
      && Aligned(b.lower, spacing) && Aligned(b.upper, spacing)
      && b.lower <= tick - m * spacing && tick + m * spacing <= b.upper
      && b.upper - b.lower == 2 * (m * spacing) + (if Aligned(tick, spacing) then 0 else spacing)
      && BandMid(b) == CenterOf(tick, spacing)
      && Abs(BandMid(b) - tick) <= (spacing - 1) / 2
  {
    CenteredBandExact(tick, m, spacing);
    var half := m * spacing;
    assert half >= 0;
  }

  // --- the limit range --------------------------------------------------------------

  function LimitRange(tick: int, spacing: int, side: Side, widthMult: int): Band
    requires spacing > 0
  {
    match side
    case Above =>
      var lower := TruncToSpacing(tick, spacing) + spacing;
      var lower := if lower == tick then lower + spacing else lower;
      Band(lower, lower + spacing * widthMult)
    case Below =>
      var upper := TruncToSpacing(tick, spacing) - spacing;
      var upper := if upper == tick then upper - spacing else upper;
      Band(upper - spacing * widthMult, upper)
  }

  /** Ticks between spot and the nearer edge of a range; zero inside it. */
  function Away(spot: int, b: Band): int
  {
    if spot < b.lower then b.lower - spot
    else if spot > b.upper then spot - b.upper
    else 0
  }

  /** A fresh limit never contains the tick it was placed from, is `widthMult` spacings wide, and
      is at most `2*spacing - 1` ticks away: rounding toward zero can leave it nearly two spacings off. */
  lemma LimitRangeShape(tick: int, spacing: int, side: Side, widthMult: int)
    requires spacing > 0 && widthMult > 0
    ensures var b := LimitRange(tick, spacing, side, widthMult);
      && Aligned(b.lower, spacing) && Aligned(b.upper, spacing)
      && b.upper - b.lower == spacing * widthMult > 0
      && (side.Above? ==> tick < b.lower) && (side.Below? ==> b.upper < tick)
      && 1 <= Away(tick, b) <= 2 * spacing - 1
  {
    LimitAnchor(tick, spacing);
    var t, w := TruncToSpacing(tick, spacing), spacing * widthMult;
    MultipleBounds(spacing, widthMult);
    if side.Above? {
      ShiftKeepsOffset(t + spacing, widthMult, spacing);
      assert widthMult * spacing == w;
    } else {
      ShiftKeepsOffset(t - spacing, -widthMult, spacing);
      assert (-widthMult) * spacing == -w;
    }
  }

  /** The grid line a limit range is anchored to is off the tick on either side, so the source's
      "if it equals the tick, move on one more" never fires. */
  lemma LimitAnchor(tick: int, spacing: int)
    requires spacing > 0
    ensures var t := TruncToSpacing(tick, spacing);
      && Aligned(t + spacing, spacing) && Aligned(t - spacing, spacing)
      && tick < t + spacing <= tick + 2 * spacing - 1
      && tick - (2 * spacing - 1) <= t - spacing < tick
  {
    TruncIsTowardZero(tick, spacing);
    FloorIsGridFloor(tick, spacing);
    ShiftKeepsOffset(TruncToSpacing(tick, spacing), 1, spacing);
    ShiftKeepsOffset(TruncToSpacing(tick, spacing), -1, spacing);
  }

  // --- the translation clamp --------------------------------------------------------

  function ClampBandTranslation(target: Band, current: Band, maxTranslation: int,
                                halfWidthMult: int, spacing: int): ClampResult
    requires spacing > 0
  {
    var tMid := BandMid(target);
    var cMid := BandMid(current);
    if Abs(tMid - cMid) <= maxTranslation then Clamp(target, false)
    else
      var step := maxTranslation - 2 * spacing;
      if step <= 0 then CapNotWorkable
      else
        var dir := if tMid > cMid then 1 else -1;
        Clamp(CenteredBand(cMid + dir * step, halfWidthMult, spacing), true)
  }

  /** Whatever the keeper plans moves the midpoint by at most the cap; a clamped plan also stops
      strictly short of the target it walks toward, so no walk overshoots. */
  lemma ClampRespectsCap(target: Band, current: Band, cap: int, m: int, spacing: int)
    requires spacing > 0 && m >= 0
    ensures var r := ClampBandTranslation(target, current, cap, m, spacing);
      r.Clamp? ==>
        && Abs(BandMid(r.band) - BandMid(current)) <= cap
        && (r.clamped ==>
              && (BandMid(target) > BandMid(current) ==> BandMid(r.band) < BandMid(target))
              && (BandMid(target) < BandMid(current) ==> BandMid(r.band) > BandMid(target)))
        && (!r.clamped ==> r.band == target)
  {
    var step := cap - 2 * spacing;
    if Abs(BandMid(target) - BandMid(current)) > cap && step > 0 {
      var dir := if BandMid(target) > BandMid(current) then 1 else -1;
      CenteredBandShape(BandMid(current) + dir * step, m, spacing);
    }
  }

  /** The clamp refuses exactly when the target is out of reach and the cap leaves no slack. */
  lemma ClampRefusalExact(target: Band, current: Band, cap: int, m: int, spacing: int)
    requires spacing > 0
    ensures ClampBandTranslation(target, current, cap, m, spacing).CapNotWorkable?
       <==> Abs(BandMid(target) - BandMid(current)) > cap && cap <= 2 * spacing
  {
  }

  /** Exactly when a walk gets closer to its target. `r` is how far the current midpoint sits above
      the grid line below it: a step too short to reach the next grid line rounds back to the middle
      of the same cell, so it helps only when that middle lies ahead. */
  lemma WalkProgressExact(target: Band, current: Band, cap: int, m: int, spacing: int)
    requires spacing > 0 && m >= 0
    requires cap > 2 * spacing
    requires Abs(BandMid(target) - BandMid(current)) > cap
    ensures var c := BandMid(current);
      var n := BandMid(ClampBandTranslation(target, current, cap, m, spacing).band);
      var step := cap - 2 * spacing;
      var r := c % spacing;
      (Abs(BandMid(target) - n) < Abs(BandMid(target) - c))
      == (if BandMid(target) > c then r + step >= spacing || r < spacing / 2
          else step >= r || r > spacing / 2)
  {
    var c := BandMid(current);
    var step := cap - 2 * spacing;
    ClampRespectsCap(target, current, cap, m, spacing);
    WalkedMid(target, current, cap, m, spacing);
    StepCell(c, if BandMid(target) > c then step else -step, spacing);
  }

  /** Where a walk puts the midpoint: a step off, on the tick or in the middle of its cell. */
  lemma WalkedMid(target: Band, current: Band, cap: int, m: int, spacing: int)
    requires spacing > 0 && m >= 0 && cap > 2 * spacing
    requires Abs(BandMid(target) - BandMid(current)) > cap
    ensures var c, step := BandMid(current), cap - 2 * spacing;
      BandMid(ClampBandTranslation(target, current, cap, m, spacing).band)
      == CenterOf(c + (if BandMid(target) > c then step else -step), spacing)
  {
    var c, step := BandMid(current), cap - 2 * spacing;
    CenteredBandShape(c + (if BandMid(target) > c then step else -step), m, spacing);
  }

  /** Where a step lands relative to the cell it starts in. */
  lemma StepCell(c: int, d: int, spacing: int)
    requires spacing > 0
    ensures var g := c - c % spacing; var g' := (c + d) - (c + d) % spacing;
      && (g <= c + d < g + spacing ==> g' == g)
      && (c + d >= g + spacing ==> g' >= g + spacing)
      && (c + d < g ==> g' <= g - spacing)
  {
    EuclidForm(c, spacing);
    GridFloor(c + d, spacing, c / spacing);
  }

  lemma EuclidForm(x: int, spacing: int)
    requires spacing > 0
    ensures x - x % spacing == spacing * (x / spacing) && 0 <= x % spacing < spacing
  {
  }

  /** The grid line at or below `x`, told from any grid line. */
  lemma GridFloor(x: int, spacing: int, q: int)
    requires spacing > 0
    ensures spacing * q <= x < spacing * q + spacing ==> x - x % spacing == spacing * q
    ensures x >= spacing * q + spacing ==> x - x % spacing >= spacing * q + spacing
    ensures x < spacing * q ==> x - x % spacing <= spacing * q - spacing
  {
    EuclidForm(x, spacing);
    var d := x / spacing - q;
    assert spacing * d == spacing * (x / spacing) - spacing * q;
    MultipleBounds(spacing, d);
  }
}
