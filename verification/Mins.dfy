/** What a re-mint consumes, and the slippage floors taken from it. The source computes in floating
    point; here every quantity is a real, and a band is its two square-root prices. */
module Mins {
  import opened Wrappers
  import opened Ticks

  /** Square-root prices of a band's bounds. */
  datatype Range = Range(sa: real, sb: real)

  predicate Proper(b: Range)
  {
    0.0 < b.sa < b.sb
  }

  datatype Split = Split(base0: real, base1: real, residual0: real, residual1: real)

  /** The price inside the band nearest to `s`. */
  function ClampInto(s: real, b: Range): real
  {
    Least(Most(s, b.sa), b.sb)
  }

  /** Liquidity one token's total can back; `None` is unbounded. */
  function Liquidity0(t0: real, sp: real, b: Range): Option<real>
    requires 0.0 < sp
  {
    if sp < b.sb then Some(t0 * sp * b.sb / (b.sb - sp)) else None
  }

  function Liquidity1(t1: real, sp: real, b: Range): Option<real>
  {
    if sp > b.sa then Some(t1 / (sp - b.sa)) else None
  }

  function LeastOf(x: Option<real>, y: Option<real>): Option<real>
  {
    if x.None? then y else if y.None? then x else Some(Least(x.value, y.value))
  }

  /** Amounts of each token a liquidity takes at a price inside the band. */
  function Amount0(l: real, sp: real, b: Range): real
    requires 0.0 < sp && 0.0 < b.sb
  {
    NonZeroProduct(sp, b.sb);
    l * (b.sb - sp) / (sp * b.sb)
  }

  function Amount1(l: real, sp: real, b: Range): real
  {
    l * (sp - b.sa)
  }

  function SplitForBand(t0: real, t1: real, sqrtPrice: real, b: Range): Split
    requires 0.0 < b.sa <= b.sb
  {
    var sp := ClampInto(sqrtPrice, b);
    var l := LeastOf(Liquidity0(t0, sp, b), Liquidity1(t1, sp, b));
    var base0 := if l.Some? && l.value > 0.0 then Amount0(l.value, sp, b) else 0.0;
    var base1 := if l.Some? && l.value > 0.0 then Amount1(l.value, sp, b) else 0.0;
    Split(base0, base1, Most(0.0, t0 - base0), Most(0.0, t1 - base1))
  }

  // --- real arithmetic, one step at a time ---------------------------------------------------

  lemma NonZeroProduct(a: real, b: real)
    requires a > 0.0 && b > 0.0
    ensures a * b > 0.0
  {
  }

  lemma QuotientTimes(a: real, b: real)
    requires b != 0.0
    ensures (a / b) * b == a
  {
  }

  lemma MulMonotone(a: real, b: real, c: real)
    requires c >= 0.0
    ensures a <= b ==> a * c <= b * c
  {
    if a <= b { assert (b - a) * c >= 0.0; }
  }

  lemma MulStrict(a: real, b: real, c: real)
    requires c > 0.0
    ensures a < b ==> a * c < b * c
  {
    if a < b { NonZeroProduct(b - a, c); }
  }

  lemma RatioAtMost(a: real, b: real, x: real)
    requires b > 0.0
    ensures a <= x * b ==> a / b <= x
    ensures a >= x * b ==> a / b >= x
  {
    QuotientTimes(a, b);
    MulStrict(a / b, x, b);
    MulStrict(x, a / b, b);
  }

  lemma QuotientSign(a: real, b: real)
    requires a >= 0.0 && b > 0.0
    ensures a / b >= 0.0
  {
    RatioAtMost(a, b, 0.0);
  }

  /** A smaller numerator over a larger denominator. */
  lemma RatioOrder(n1: real, d1: real, n2: real, d2: real)
    requires 0.0 <= n2 <= n1 && 0.0 < d1 <= d2
    ensures n2 / d2 <= n1 / d1
  {
    QuotientTimes(n1, d1);
    QuotientSign(n1, d1);
    MulMonotone(d1, d2, n1 / d1);
    assert (n1 / d1) * d1 == d1 * (n1 / d1) && (n1 / d1) * d2 == d2 * (n1 / d1);
    RatioAtMost(n2, d2, n1 / d1);
  }

  // --- the split -------------------------------------------------------------------------------

  lemma FillsUp(l: real, t: real, d: real, c: real)
    requires d > 0.0 && c > 0.0
    ensures l <= t * c / d <==> l * d / c <= t
    ensures l == t * c / d ==> l * d / c == t
  {
    var top, back := t * c / d, l * d / c;
    assert top * d == t * c by { QuotientTimes(t * c, d); }
    assert back * c == l * d by { QuotientTimes(l * d, c); }
    if l <= top {
      assert l * d <= top * d by { MulMonotone(l, top, d); }
      SmallerFactor(back, t, c);
    } else {
      assert top * d < l * d by { MulStrict(top, l, d); }
      LargerFactor(t, back, c);
    }
    if l == top { SmallerFactor(t, back, c); }
  }

  lemma SmallerFactor(a: real, b: real, c: real)
    requires c > 0.0 && a * c <= b * c
    ensures a <= b
  {
    if a > b { MulStrict(b, a, c); }
  }

  lemma LargerFactor(a: real, b: real, c: real)
    requires c > 0.0 && a * c < b * c
    ensures a < b
  {
    if a >= b { MulMonotone(b, a, c); }
  }

  /** A token's liquidity is the most it can pay for, and uses it up. */
  lemma Fills0(l: real, t0: real, sp: real, b: Range)
    requires 0.0 < sp < b.sb
    ensures var l0 := t0 * sp * b.sb / (b.sb - sp);
      && Amount0(l0, sp, b) == t0
      && (l <= l0 <==> Amount0(l, sp, b) <= t0)
  {
    var d, c := b.sb - sp, sp * b.sb;
    NonZeroProduct(sp, b.sb);
    assert t0 * sp * b.sb == t0 * c;
    FillsUp(l, t0, d, c);
    FillsUp(t0 * c / d, t0, d, c);
  }

  lemma Fills1(l: real, t1: real, sp: real, b: Range)
    requires b.sa < sp
    ensures var l1 := t1 / (sp - b.sa);
      && Amount1(l1, sp, b) == t1
      && (l <= l1 <==> Amount1(l, sp, b) <= t1)
  {
    QuotientTimes(t1, sp - b.sa);
    MulMonotone(l, t1 / (sp - b.sa), sp - b.sa);
    MulStrict(t1 / (sp - b.sa), l, sp - b.sa);
  }

  /** The binding liquidity at a price. */
  function Binding(t0: real, t1: real, sp: real, b: Range): Option<real>
    requires 0.0 < sp
  {
    LeastOf(Liquidity0(t0, sp, b), Liquidity1(t1, sp, b))
  }

  /** What a liquidity takes fits in what there is. */
  predicate Affordable(l: real, t0: real, t1: real, sp: real, b: Range)
    requires 0.0 < sp && 0.0 < b.sb
  {
    Amount0(l, sp, b) <= t0 && Amount1(l, sp, b) <= t1
  }

  lemma AmountsAt(l: real, sp: real, b: Range)
    requires 0.0 < b.sa <= sp <= b.sb && l >= 0.0
    ensures Amount0(l, sp, b) >= 0.0 && Amount1(l, sp, b) >= 0.0
    ensures sp == b.sb ==> Amount0(l, sp, b) == 0.0
    ensures sp == b.sa ==> Amount1(l, sp, b) == 0.0
    ensures l == 0.0 ==> Amount0(l, sp, b) == 0.0 && Amount1(l, sp, b) == 0.0
  {
    NonZeroProduct(sp, b.sb);
    MulMonotone(0.0, b.sb - sp, l);
    MulMonotone(0.0, sp - b.sa, l);
    QuotientSign(l * (b.sb - sp), sp * b.sb);
    RatioAtMost(l * (b.sb - sp), sp * b.sb, 0.0);
  }

  lemma BindingUsesOneUp(t0: real, t1: real, sp: real, b: Range)
    requires Proper(b) && b.sa <= sp <= b.sb
    ensures var l := Binding(t0, t1, sp, b);
      l.Some? && (Amount0(l.value, sp, b) == t0 || Amount1(l.value, sp, b) == t1)
  {
    var l := Binding(t0, t1, sp, b).value;
    if Liquidity0(t0, sp, b) == Some(l) { Fills0(l, t0, sp, b); } else { Fills1(l, t1, sp, b); }
  }

  lemma BindingNonNegative(t0: real, t1: real, sp: real, b: Range)
    requires Proper(b) && b.sa <= sp <= b.sb && t0 >= 0.0 && t1 >= 0.0
    ensures Binding(t0, t1, sp, b).Some? && Binding(t0, t1, sp, b).value >= 0.0
  {
    if sp < b.sb { LiquidityNonNegative0(t0, sp, b); }
    if sp > b.sa { QuotientSign(t1, sp - b.sa); }
  }

  /** Affordable is at most binding, and the other way round. */
  lemma BindingIsMaximal(t0: real, t1: real, sp: real, b: Range, other: real)
    requires Proper(b) && b.sa <= sp <= b.sb && t0 >= 0.0 && t1 >= 0.0 && other >= 0.0
    ensures Binding(t0, t1, sp, b).Some?
    ensures Affordable(other, t0, t1, sp, b) <==> other <= Binding(t0, t1, sp, b).value
  {
    Within0(t0, sp, b, other);
    Within1(t1, sp, b, other);
    LeastBounds(Liquidity0(t0, sp, b), Liquidity1(t1, sp, b), other);
  }

  predicate AtMost(l: real, top: Option<real>)
  {
    top.Some? ==> l <= top.value
  }

  lemma LeastBounds(x: Option<real>, y: Option<real>, l: real)
    ensures AtMost(l, LeastOf(x, y)) <==> AtMost(l, x) && AtMost(l, y)
  {
  }

  lemma Within0(t0: real, sp: real, b: Range, l: real)
    requires Proper(b) && b.sa <= sp <= b.sb && t0 >= 0.0 && l >= 0.0
    ensures Amount0(l, sp, b) <= t0 <==> AtMost(l, Liquidity0(t0, sp, b))
  {
    if sp < b.sb { Fills0(l, t0, sp, b); } else { AmountsAt(l, sp, b); }
  }

  lemma Within1(t1: real, sp: real, b: Range, l: real)
    requires Proper(b) && b.sa <= sp <= b.sb && t1 >= 0.0 && l >= 0.0
    ensures Amount1(l, sp, b) <= t1 <==> AtMost(l, Liquidity1(t1, sp, b))
  {
    if sp > b.sa { Fills1(l, t1, sp, b); } else { AmountsAt(l, sp, b); }
  }

  lemma LiquidityNonNegative0(t0: real, sp: real, b: Range)
    requires 0.0 < sp < b.sb && t0 >= 0.0
    ensures t0 * sp * b.sb / (b.sb - sp) >= 0.0
  {
    MulMonotone(0.0, t0, sp);
    MulMonotone(0.0, t0 * sp, b.sb);
    QuotientSign(t0 * sp * b.sb, b.sb - sp);
  }

  lemma ClampInside(s: real, b: Range)
    requires b.sa <= b.sb
    ensures b.sa <= ClampInto(s, b) <= b.sb
    ensures b.sa <= s <= b.sb ==> ClampInto(s, b) == s
  {
  }

  /** The split of any totals at any price: nothing is created or lost, at least one token is used up,
      and no larger liquidity could be paid for. */
  lemma SplitIsMaximal(t0: real, t1: real, sqrtPrice: real, b: Range, other: real)
    requires Proper(b) && t0 >= 0.0 && t1 >= 0.0 && other >= 0.0
    ensures var s := SplitForBand(t0, t1, sqrtPrice, b); var sp := ClampInto(sqrtPrice, b);
      && s.base0 + s.residual0 == t0 && s.base1 + s.residual1 == t1
      && 0.0 <= s.base0 && 0.0 <= s.base1 && 0.0 <= s.residual0 && 0.0 <= s.residual1
      && (s.residual0 == 0.0 || s.residual1 == 0.0)
    ensures var s := SplitForBand(t0, t1, sqrtPrice, b); var sp := ClampInto(sqrtPrice, b);
      Affordable(other, t0, t1, sp, b) ==>
        var l := Binding(t0, t1, sp, b);
        l.Some? && other <= l.value && s.base0 == Amount0(l.value, sp, b) && s.base1 == Amount1(l.value, sp, b)
  {
    var sp := ClampInto(sqrtPrice, b);
    SplitAmounts(t0, t1, sqrtPrice, b);
    BindingNonNegative(t0, t1, sp, b);
    BindingIsMaximal(t0, t1, sp, b, other);
    BindingIsMaximal(t0, t1, sp, b, Binding(t0, t1, sp, b).value);
    BindingUsesOneUp(t0, t1, sp, b);
    AmountsAt(Binding(t0, t1, sp, b).value, sp, b);
  }

  /** A band of no width takes nothing. */
  lemma EmptyBandTakesNothing(t0: real, t1: real, sqrtPrice: real, s: real)
    requires s > 0.0 && t0 >= 0.0 && t1 >= 0.0
    ensures SplitForBand(t0, t1, sqrtPrice, Range(s, s)) == Split(0.0, 0.0, t0, t1)
  {
  }

  // --- price moves ---------------------------------------------------------------------------------

  lemma ScaledRatioOrder(l: real, n1: real, d1: real, n2: real, d2: real)
    requires 0.0 <= l && 0.0 <= n2 <= n1 && 0.0 < d1 <= d2
    ensures l * n2 / d2 <= l * n1 / d1
  {
    MulMonotone(n2, n1, l);
    MulMonotone(0.0, n2, l);
    RatioOrder(l * n1, d1, l * n2, d2);
  }

  lemma Amount0FallsInPrice(l: real, s1: real, s2: real, b: Range)
    requires 0.0 < b.sa <= s1 <= s2 <= b.sb && 0.0 <= l
    ensures Amount0(l, s2, b) <= Amount0(l, s1, b)
  {
    MulMonotone(s1, s2, b.sb);
    NonZeroProduct(s1, b.sb);
    ScaledRatioOrder(l, b.sb - s1, s1 * b.sb, b.sb - s2, s2 * b.sb);
  }

  lemma Amount0RisesInLiquidity(l1: real, l2: real, sp: real, b: Range)
    requires 0.0 < sp <= b.sb && 0.0 <= l2 <= l1
    ensures Amount0(l2, sp, b) <= Amount0(l1, sp, b)
  {
    MulMonotone(l2, l1, b.sb - sp);
    MulMonotone(0.0, l2, b.sb - sp);
    NonZeroProduct(sp, b.sb);
    RatioOrder(l1 * (b.sb - sp), sp * b.sb, l2 * (b.sb - sp), sp * b.sb);
  }

  lemma Amount1Rises(l1: real, l2: real, s1: real, s2: real, b: Range)
    requires 0.0 < b.sa <= s1 <= s2 && 0.0 <= l1 <= l2
    ensures Amount1(l1, s1, b) <= Amount1(l2, s2, b)
  {
    MulMonotone(l1, l2, s2 - b.sa);
    MulMonotone(s1 - b.sa, s2 - b.sa, l1);
  }

  lemma Liquidity0Rises(t0: real, s1: real, s2: real, b: Range)
    requires 0.0 < s1 <= s2 < b.sb && t0 >= 0.0
    ensures t0 * s1 * b.sb / (b.sb - s1) <= t0 * s2 * b.sb / (b.sb - s2)
  {
    MulMonotone(s1, s2, t0);
    assert t0 * s1 <= t0 * s2;
    MulMonotone(t0 * s1, t0 * s2, b.sb);
    MulMonotone(0.0, t0, s1);
    MulMonotone(0.0, t0 * s1, b.sb);
    RatioOrder(t0 * s2 * b.sb, b.sb - s2, t0 * s1 * b.sb, b.sb - s1);
  }

  lemma BindingIsOneOf(t0: real, t1: real, sp: real, b: Range)
    requires Proper(b) && b.sa <= sp <= b.sb
    ensures var l := Binding(t0, t1, sp, b); l.Some? && (l == Liquidity0(t0, sp, b) || l == Liquidity1(t1, sp, b))
  {
  }

  lemma BindsOrFills0(t0: real, t1: real, sp: real, b: Range)
    requires Proper(b) && b.sa <= sp <= b.sb
    ensures var l := Binding(t0, t1, sp, b);
      l.Some? && (Amount0(l.value, sp, b) == t0 || (sp > b.sa && l.value == t1 / (sp - b.sa)))
  {
    BindingIsOneOf(t0, t1, sp, b);
    var l := Binding(t0, t1, sp, b).value;
    if Liquidity0(t0, sp, b) == Some(l) { Fills0(l, t0, sp, b); }
  }

  lemma BindsOrFills1(t0: real, t1: real, sp: real, b: Range)
    requires Proper(b) && b.sa <= sp <= b.sb
    ensures var l := Binding(t0, t1, sp, b);
      l.Some? && (Amount1(l.value, sp, b) == t1 || (sp < b.sb && l.value == t0 * sp * b.sb / (b.sb - sp)))
  {
    BindingIsOneOf(t0, t1, sp, b);
    var l := Binding(t0, t1, sp, b).value;
    if Liquidity1(t1, sp, b) == Some(l) { Fills1(l, t1, sp, b); }
  }

  /** Either a token is used up, or the other token's liquidity binds. */
  lemma Base0Cases(t0: real, t1: real, sp: real, b: Range)
    requires Proper(b) && b.sa <= sp <= b.sb
    ensures var l := Binding(t0, t1, sp, b);
      && l.Some?
      && (Amount0(l.value, sp, b) == t0 || (sp > b.sa && l.value == t1 / (sp - b.sa)))
      && (Amount1(l.value, sp, b) == t1 || (sp < b.sb && l.value == t0 * sp * b.sb / (b.sb - sp)))
      && (sp > b.sa ==> l.value <= t1 / (sp - b.sa))
      && (sp < b.sb ==> l.value <= t0 * sp * b.sb / (b.sb - sp))
  {
    BindsOrFills0(t0, t1, sp, b);
    BindsOrFills1(t0, t1, sp, b);
    LeastBounds(Liquidity0(t0, sp, b), Liquidity1(t1, sp, b), Binding(t0, t1, sp, b).value);
  }

  /** Inside the band a higher price takes no more of token0 and no less of token1. */
  lemma AmountsMoveOneWay(t0: real, t1: real, s1: real, s2: real, b: Range)
    requires Proper(b) && t0 >= 0.0 && t1 >= 0.0 && b.sa <= s1 <= s2 <= b.sb
    ensures Amount0(Binding(t0, t1, s2, b).value, s2, b) <= Amount0(Binding(t0, t1, s1, b).value, s1, b)
    ensures Amount1(Binding(t0, t1, s1, b).value, s1, b) <= Amount1(Binding(t0, t1, s2, b).value, s2, b)
  {
    var l1, l2 := Binding(t0, t1, s1, b).value, Binding(t0, t1, s2, b).value;
    BindingNonNegative(t0, t1, s1, b);
    BindingNonNegative(t0, t1, s2, b);
    BindingIsMaximal(t0, t1, s1, b, l1);
    BindingIsMaximal(t0, t1, s2, b, l2);
    Base0Cases(t0, t1, s1, b);
    Base0Cases(t0, t1, s2, b);
    if Amount0(l1, s1, b) != t0 {
      RatioOrder(t1, s1 - b.sa, t1, s2 - b.sa);
      Amount0FallsInPrice(l1, s1, s2, b);
      Amount0RisesInLiquidity(l1, l2, s2, b);
    }
    if Amount1(l2, s2, b) != t1 {
      Liquidity0Rises(t0, s1, s2, b);
      Amount1Rises(l1, l2, s1, s2, b);
    }
  }

  /** The same for any two prices, in the band or out of it. */
  lemma SplitMovesOneWay(t0: real, t1: real, p1: real, p2: real, b: Range)
    requires Proper(b) && t0 >= 0.0 && t1 >= 0.0 && p1 <= p2
    ensures SplitForBand(t0, t1, p2, b).base0 <= SplitForBand(t0, t1, p1, b).base0
    ensures SplitForBand(t0, t1, p1, b).base1 <= SplitForBand(t0, t1, p2, b).base1
  {
    ClampInside(p1, b);
    ClampInside(p2, b);
    var s1, s2 := ClampInto(p1, b), ClampInto(p2, b);
    AmountsMoveOneWay(t0, t1, s1, s2, b);
    SplitAmounts(t0, t1, p1, b);
    SplitAmounts(t0, t1, p2, b);
  }

  lemma SplitAmounts(t0: real, t1: real, sqrtPrice: real, b: Range)
    requires Proper(b) && t0 >= 0.0 && t1 >= 0.0
    ensures var s := SplitForBand(t0, t1, sqrtPrice, b); var sp := ClampInto(sqrtPrice, b);
      && sp > 0.0 && Binding(t0, t1, sp, b).Some?
      && s.base0 == Amount0(Binding(t0, t1, sp, b).value, sp, b)
      && s.base1 == Amount1(Binding(t0, t1, sp, b).value, sp, b)
  {
    var sp := ClampInto(sqrtPrice, b);
    ClampInside(sqrtPrice, b);
    BindingNonNegative(t0, t1, sp, b);
    AmountsAt(Binding(t0, t1, sp, b).value, sp, b);
  }

  // --- floors ------------------------------------------------------------------------------------------

  function FloorToInt(x: real): nat
  {
    if x <= 0.0 then 0 else x.Floor
  }

  function Kept(amount: real, k: real): nat
  {
    FloorToInt(amount * k)
  }

  /** One minus the tolerance. */
  function Keep(toleranceBps: int): real
  {
    1.0 - toleranceBps as real / 10000.0
  }

  function SurplusSide(s: Split, price: real): Side
  {
    if s.residual0 * price > s.residual1 then Above else Below
  }

  datatype MintFloors = MintFloors(base0: nat, base1: nat, limit0: nat, limit1: nat)

  function MintMins(s: Split, side: Side, toleranceBps: int): MintFloors
  {
    var k := Keep(toleranceBps);
    MintFloors(Kept(s.base0, k), Kept(s.base1, k),
               Kept(if side.Above? then s.residual0 else 0.0, k),
               Kept(if side.Below? then s.residual1 else 0.0, k))
  }

  /** What the vault's two positions hold now, in both tokens. */
  datatype Holdings = Holdings(base0: nat, base1: nat, limit0: nat, limit1: nat)

  /** The floors of the burn that precedes the mint. */
  function BurnMins(h: Holdings, toleranceBps: int): MintFloors
  {
    var k := Keep(toleranceBps);
    MintFloors(Kept(h.base0 as real, k), Kept(h.base1 as real, k), Kept(h.limit0 as real, k), Kept(h.limit1 as real, k))
  }

  /** The limit goes to the side that has something left, so base and limit together take everything. */
  lemma NothingIsLeftBehind(t0: real, t1: real, sqrtPrice: real, b: Range, price: real)
    requires Proper(b) && t0 >= 0.0 && t1 >= 0.0 && price > 0.0
    ensures var s := SplitForBand(t0, t1, sqrtPrice, b); var side := SurplusSide(s, price);
      && s.base0 + (if side.Above? then s.residual0 else 0.0) == t0
      && s.base1 + (if side.Below? then s.residual1 else 0.0) == t1
  {
    SplitIsMaximal(t0, t1, sqrtPrice, b, 0.0);
    var s := SplitForBand(t0, t1, sqrtPrice, b);
    if s.residual0 > 0.0 { NonZeroProduct(s.residual0, price); }
  }

  lemma KeepIsAFraction(toleranceBps: int)
    requires 1 <= toleranceBps <= 9999
    ensures 0.0 < Keep(toleranceBps) < 1.0
  {
  }

  lemma FloorIsBelow(x: real, k: real)
    requires x >= 0.0 && 0.0 <= k <= 1.0
    ensures Kept(x, k) as real <= x
  {
    Shrinks(x, k);
    RealFloor(x * k);
  }

  lemma Shrinks(x: real, k: real)
    requires x >= 0.0 && 0.0 <= k <= 1.0
    ensures 0.0 <= x * k <= x
  {
    MulMonotone(k, 1.0, x);
    MulMonotone(0.0, k, x);
    assert k * x == x * k;
  }

  lemma RealFloor(y: real)
    requires y >= 0.0
    ensures FloorToInt(y) as real <= y
  {
  }

  /** The mint at an execution price clears the base floors set at the decision price. */
  predicate Clears(t0: real, t1: real, executed: real, b: Range, floors: MintFloors)
    requires Proper(b)
  {
    var s := SplitForBand(t0, t1, executed, b);
    floors.base0 as real <= s.base0 && floors.base1 as real <= s.base1
  }

  lemma DecisionPriceClears(t0: real, t1: real, decided: real, b: Range, side: Side, toleranceBps: int)
    requires Proper(b) && t0 >= 0.0 && t1 >= 0.0 && 1 <= toleranceBps <= 9999
    ensures Clears(t0, t1, decided, b, MintMins(SplitForBand(t0, t1, decided, b), side, toleranceBps))
  {
    SplitIsMaximal(t0, t1, decided, b, 0.0);
    BaseFloorsBelow(SplitForBand(t0, t1, decided, b), side, toleranceBps);
  }

  lemma BaseFloorsBelow(s: Split, side: Side, toleranceBps: int)
    requires 1 <= toleranceBps <= 9999 && s.base0 >= 0.0 && s.base1 >= 0.0
    ensures var f := MintMins(s, side, toleranceBps); f.base0 as real <= s.base0 && f.base1 as real <= s.base1
  {
    var k := Keep(toleranceBps);
    KeepIsAFraction(toleranceBps);
    FloorIsBelow(s.base0, k);
    FloorIsBelow(s.base1, k);
  }

  /** The prices a mint survives: an interval, with the decision price in it, whatever the floors. */
  lemma FloorsAdmitAnInterval(t0: real, t1: real, b: Range, floors: MintFloors, low: real, mid: real, high: real)
    requires Proper(b) && t0 >= 0.0 && t1 >= 0.0
    requires low <= mid <= high
    requires Clears(t0, t1, low, b, floors) && Clears(t0, t1, high, b, floors)
    ensures Clears(t0, t1, mid, b, floors)
  {
    SplitMovesOneWay(t0, t1, low, mid, b);
    SplitMovesOneWay(t0, t1, mid, high, b);
  }

  // --- and what they buy --------------------------------------------------------------------------------

  /** The whole units in `amount` less the tolerance: no more than that, and less than one unit short of it. */
  predicate Guards(floor: nat, amount: real, toleranceBps: int)
  {
    && 10000.0 * floor as real <= amount * (10000 - toleranceBps) as real
    && amount * (10000 - toleranceBps) as real < 10000.0 * (floor as real + 1.0)
  }

  lemma KeptGuards(amount: real, toleranceBps: int)
    requires amount >= 0.0 && 1 <= toleranceBps <= 9999
    ensures Guards(Kept(amount, Keep(toleranceBps)), amount, toleranceBps)
  {
    var k := Keep(toleranceBps);
    KeepIsAFraction(toleranceBps);
    MulMonotone(0.0, k, amount);
    assert k * 10000.0 == (10000 - toleranceBps) as real;
    assert (amount * k) * 10000.0 == amount * (k * 10000.0);
    NextFloor(amount * k);
  }

  lemma NextFloor(y: real)
    requires y >= 0.0
    ensures FloorToInt(y) as real <= y < FloorToInt(y) as real + 1.0
  {
  }

  /** All four floors of a mint guard what the split predicts, with nothing asked of the side that is not minted. */
  lemma MintFloorsGuard(s: Split, side: Side, toleranceBps: int)
    requires 0.0 <= s.base0 && 0.0 <= s.base1 && 0.0 <= s.residual0 && 0.0 <= s.residual1
    requires 1 <= toleranceBps <= 9999
    ensures var f := MintMins(s, side, toleranceBps);
      && Guards(f.base0, s.base0, toleranceBps) && Guards(f.base1, s.base1, toleranceBps)
      && (side == Above ==> Guards(f.limit0, s.residual0, toleranceBps) && f.limit1 == 0)
      && (side == Below ==> Guards(f.limit1, s.residual1, toleranceBps) && f.limit0 == 0)
  {
    KeptGuards(s.base0, toleranceBps);
    KeptGuards(s.base1, toleranceBps);
    KeptGuards(s.residual0, toleranceBps);
    KeptGuards(s.residual1, toleranceBps);
    KeptGuards(0.0, toleranceBps);
  }

  /** And the four of the burn guard what the positions hold. */
  lemma BurnFloorsGuard(h: Holdings, toleranceBps: int)
    requires 1 <= toleranceBps <= 9999
    ensures var f := BurnMins(h, toleranceBps);
      && Guards(f.base0, h.base0 as real, toleranceBps) && Guards(f.base1, h.base1 as real, toleranceBps)
      && Guards(f.limit0, h.limit0 as real, toleranceBps) && Guards(f.limit1, h.limit1 as real, toleranceBps)
  {
    KeptGuards(h.base0 as real, toleranceBps);
    KeptGuards(h.base1 as real, toleranceBps);
    KeptGuards(h.limit0 as real, toleranceBps);
    KeptGuards(h.limit1 as real, toleranceBps);
  }

  /** An execution that would take less of either token than the tolerance allows, by a whole unit, is refused. */
  lemma WorseThanTheToleranceIsRefused(t0: real, t1: real, decided: real, executed: real, b: Range, side: Side,
                                       toleranceBps: int)
    requires Proper(b) && t0 >= 0.0 && t1 >= 0.0 && 1 <= toleranceBps <= 9999
    ensures var s, e := SplitForBand(t0, t1, decided, b), SplitForBand(t0, t1, executed, b);
      var keep := (10000 - toleranceBps) as real;
      10000.0 * (e.base0 + 1.0) <= s.base0 * keep || 10000.0 * (e.base1 + 1.0) <= s.base1 * keep ==>
        !Clears(t0, t1, executed, b, MintMins(s, side, toleranceBps))
  {
    SplitIsMaximal(t0, t1, decided, b, 0.0);
    MintFloorsGuard(SplitForBand(t0, t1, decided, b), side, toleranceBps);
  }

  // --- the sweep ----------------------------------------------------------------------------------------

  datatype SweepSplits = SweepSplits(base: Split, limit: Split)

  /** What a sweep is predicted to do: the base takes what it can, the limit what it can of the
      whole-unit leftovers. */
  function SplitSweep(idle0: nat, idle1: nat, sqrtPrice: real, base: Range, limit: Range): SweepSplits
    requires 0.0 < base.sa <= base.sb && 0.0 < limit.sa <= limit.sb
  {
    var b := SplitForBand(idle0 as real, idle1 as real, sqrtPrice, base);
    SweepSplits(b, SplitForBand(FloorToInt(b.residual0) as real, FloorToInt(b.residual1) as real, sqrtPrice, limit))
  }

  function SweepFloors(s: SweepSplits, k: real): MintFloors
  {
    MintFloors(Kept(s.base.base0, k), Kept(s.base.base1, k), Kept(s.limit.base0, k), Kept(s.limit.base1, k))
  }

  function CompoundMins(idle0: nat, idle1: nat, sqrtPrice: real, base: Range, limit: Range,
                        toleranceBps: int): MintFloors
    requires 0.0 < base.sa <= base.sb && 0.0 < limit.sa <= limit.sb
  {
    SweepFloors(SplitSweep(idle0, idle1, sqrtPrice, base, limit), Keep(toleranceBps))
  }

  lemma SplitConserves(t0: real, t1: real, sqrtPrice: real, b: Range)
    requires 0.0 < b.sa <= b.sb && t0 >= 0.0 && t1 >= 0.0
    ensures var s := SplitForBand(t0, t1, sqrtPrice, b);
      && 0.0 <= s.base0 && 0.0 <= s.base1 && 0.0 <= s.residual0 && 0.0 <= s.residual1
      && s.base0 + s.residual0 == t0 && s.base1 + s.residual1 == t1
  {
    if Proper(b) { SplitIsMaximal(t0, t1, sqrtPrice, b, 0.0); } else { EmptyBandTakesNothing(t0, t1, sqrtPrice, b.sa); }
  }

  lemma FloorsWithin(idle: nat, based: real, left: real, limited: real, k: real)
    requires 0.0 <= based && 0.0 <= left && based + left == idle as real
    requires 0.0 <= limited <= FloorToInt(left) as real && 0.0 <= k <= 1.0
    ensures Kept(based, k) + Kept(limited, k) <= idle
  {
    FloorIsBelow(based, k);
    FloorIsBelow(limited, k);
  }

  predicate SweepFits(idle0: nat, idle1: nat, s: SweepSplits)
  {
    && 0.0 <= s.base.base0 && 0.0 <= s.base.residual0 && s.base.base0 + s.base.residual0 == idle0 as real
    && 0.0 <= s.base.base1 && 0.0 <= s.base.residual1 && s.base.base1 + s.base.residual1 == idle1 as real
    && 0.0 <= s.limit.base0 <= FloorToInt(s.base.residual0) as real
    && 0.0 <= s.limit.base1 <= FloorToInt(s.base.residual1) as real
  }

  lemma SplitSweepFits(idle0: nat, idle1: nat, sqrtPrice: real, base: Range, limit: Range)
    requires 0.0 < base.sa <= base.sb && 0.0 < limit.sa <= limit.sb
    ensures SweepFits(idle0, idle1, SplitSweep(idle0, idle1, sqrtPrice, base, limit))
  {
    var b := SplitForBand(idle0 as real, idle1 as real, sqrtPrice, base);
    SplitConserves(idle0 as real, idle1 as real, sqrtPrice, base);
    SplitConserves(FloorToInt(b.residual0) as real, FloorToInt(b.residual1) as real, sqrtPrice, limit);
  }

  /** Base and limit floors of a sweep together never ask for more than is idle, in either token, even
      when one of the ranges is empty. */
  lemma SweepFloorsFit(idle0: nat, idle1: nat, sqrtPrice: real, base: Range, limit: Range, toleranceBps: int)
    requires 0.0 < base.sa <= base.sb && 0.0 < limit.sa <= limit.sb
    requires 1 <= toleranceBps <= 9999
    ensures var f := CompoundMins(idle0, idle1, sqrtPrice, base, limit, toleranceBps);
      f.base0 + f.limit0 <= idle0 && f.base1 + f.limit1 <= idle1
  {
    SplitSweepFits(idle0, idle1, sqrtPrice, base, limit);
    KeepIsAFraction(toleranceBps);
    FloorsFit(idle0, idle1, SplitSweep(idle0, idle1, sqrtPrice, base, limit), Keep(toleranceBps));
  }

  lemma FloorsFit(idle0: nat, idle1: nat, s: SweepSplits, k: real)
    requires SweepFits(idle0, idle1, s) && 0.0 <= k <= 1.0
    ensures var f := SweepFloors(s, k);
      f.base0 + f.limit0 <= idle0 && f.base1 + f.limit1 <= idle1
  {
    FloorsWithin(idle0, s.base.base0, s.base.residual0, s.limit.base0, k);
    FloorsWithin(idle1, s.base.base1, s.base.residual1, s.limit.base1, k);
  }

  /** The four floors of a sweep guard what it is predicted to put where. */
  lemma SweepFloorsGuard(idle0: nat, idle1: nat, sqrtPrice: real, base: Range, limit: Range, toleranceBps: int)
    requires 0.0 < base.sa <= base.sb && 0.0 < limit.sa <= limit.sb
    requires 1 <= toleranceBps <= 9999
    ensures var s := SplitSweep(idle0, idle1, sqrtPrice, base, limit);
      var f := CompoundMins(idle0, idle1, sqrtPrice, base, limit, toleranceBps);
      && Guards(f.base0, s.base.base0, toleranceBps) && Guards(f.base1, s.base.base1, toleranceBps)
      && Guards(f.limit0, s.limit.base0, toleranceBps) && Guards(f.limit1, s.limit.base1, toleranceBps)
  {
    SplitSweepFits(idle0, idle1, sqrtPrice, base, limit);
    var s := SplitSweep(idle0, idle1, sqrtPrice, base, limit);
    KeptGuards(s.base.base0, toleranceBps);
    KeptGuards(s.base.base1, toleranceBps);
    KeptGuards(s.limit.base0, toleranceBps);
    KeptGuards(s.limit.base1, toleranceBps);
  }

  /** What a sweep is predicted to leave: the limit is offered the whole units the base could not take, and
      takes as much of them as its range allows. */
  lemma SweepOffersTheRest(idle0: nat, idle1: nat, sqrtPrice: real, base: Range, limit: Range)
    requires 0.0 < base.sa <= base.sb && 0.0 < limit.sa <= limit.sb
    ensures var s := SplitSweep(idle0, idle1, sqrtPrice, base, limit);
      && s.base == SplitForBand(idle0 as real, idle1 as real, sqrtPrice, base)
      && exists left0: nat, left1: nat :: SweepLeaves(s, left0, left1, sqrtPrice, limit)
  {
    var s := SplitSweep(idle0, idle1, sqrtPrice, base, limit);
    SplitSweepFits(idle0, idle1, sqrtPrice, base, limit);
    NextFloor(s.base.residual0);
    NextFloor(s.base.residual1);
    assert SweepLeaves(s, FloorToInt(s.base.residual0), FloorToInt(s.base.residual1), sqrtPrice, limit);
  }

  predicate SweepLeaves(s: SweepSplits, left0: nat, left1: nat, sqrtPrice: real, limit: Range)
    requires 0.0 < limit.sa <= limit.sb
  {
    && left0 as real <= s.base.residual0 < left0 as real + 1.0
    && left1 as real <= s.base.residual1 < left1 as real + 1.0
    && s.limit == SplitForBand(left0 as real, left1 as real, sqrtPrice, limit)
  }
}
