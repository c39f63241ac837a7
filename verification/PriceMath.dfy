/** Integer price conversion: prices as 1e18 fixed point, square-root prices as 96-bit fixed point. */
module PriceMath {
  import opened Wrappers
  import opened Ticks

  const E18: nat := 1000000000000000000
  const Q192: nat := 0x1_0000000000000000_0000000000000000_0000000000000000

  // --- integer square root -----------------------------------------------------------------

  predicate IsRoot(n: nat, r: nat)
  {
    r * r <= n < (r + 1) * (r + 1)
  }

  /** The floor of the square root, found by counting up. */
  function Root(n: nat): (r: nat)
    ensures IsRoot(n, r)
  {
    if n == 0 then 0
    else
      var r := Root(n - 1);
      assert (r + 2) * (r + 2) == (r + 1) * (r + 1) + 2 * r + 3;
      if (r + 1) * (r + 1) <= n then r + 1 else r
  }

  lemma RootOrder(m: nat, n: nat, a: nat, b: nat)
    requires m <= n && IsRoot(m, a) && IsRoot(n, b)
    ensures a <= b
  {
    if a >= b + 1 {
      SquareMonotone(b + 1, a);
    }
  }

  lemma SquareMonotone(a: nat, b: nat)
    requires a <= b
    ensures a * a <= b * b
  {
    assert b * b - a * a == (b - a) * (b + a);
  }

  lemma RootUnique(n: nat, r: nat)
    requires IsRoot(n, r)
    ensures r == Root(n)
  {
    RootOrder(n, n, r, Root(n));
    RootOrder(n, n, Root(n), r);
  }

  lemma Assoc(a: int, b: int, c: int)
    ensures (a * b) * c == a * (b * c) == (a * c) * b
  {
  }

  lemma Distribute(a: int, b: int, c: int)
    ensures (a + b) * c == a * c + b * c
  {
  }

  lemma MulOrder(a: int, b: int, c: int)
    requires c >= 0
    ensures a <= b ==> a * c <= b * c
    ensures a < b && c > 0 ==> a * c < b * c
  {
    if a <= b { assert (b - a) * c >= 0; Distribute(b - a, a, c); }
    if a < b && c > 0 { assert (b - a - 1) * c >= 0; Distribute(b - a - 1, a + 1, c); Distribute(a, 1, c); }
  }

  lemma MulCancels(a: int, b: int, c: int)
    requires c > 0
    ensures a * c <= b * c ==> a <= b
    ensures a * c < b * c ==> a < b
  {
    MulOrder(b, a, c);
    MulOrder(b + 1, a, c);
    Distribute(b, 1, c);
  }

  /** A Newton step from above, with its quotient named. */
  predicate NewtonStep(n: nat, x: nat, q: nat, y: nat)
  {
    x > 0 && x * q <= n < x * q + x && y == (x + q) / 2
  }

  /** A Newton step never falls below the root. */
  lemma NewtonStaysAbove(n: nat, x: nat, q: nat, y: nat)
    requires NewtonStep(n, x, q, y)
    ensures (y + 1) * (y + 1) > n
  {
    var s, t := x + q + 1, 2 * (y + 1);
    SquareMonotone(s, t);
    FourProducts(x, q + 1);
    Distribute(q, 1, x);
    assert t * t == 4 * ((y + 1) * (y + 1));
  }

  lemma FourProducts(a: nat, b: nat)
    ensures (a + b) * (a + b) >= 4 * (a * b)
  {
    assert (a + b) * (a + b) == 4 * (a * b) + (a - b) * (a - b);
    SquareNonNegative(a - b);
  }

  lemma SquareNonNegative(d: int)
    ensures d * d >= 0
  {
  }

  /** Newton's iteration from above: it stops, and on the floor of the root. */
  method Isqrt(n: nat) returns (r: nat)
    ensures IsRoot(n, r)
    ensures r == Root(n)
  {
    if n < 2 {
      RootUnique(n, n);
      return n;
    }
    var x: nat, y: nat := n, (n + 1) / 2;
    ghost var q: nat := 1;
    AboveItsRoot(n);
    while y < x
      invariant NewtonStep(n, x, q, y)
      invariant (x + 1) * (x + 1) > n
      decreases x
    {
      NewtonStaysAbove(n, x, q, y);
      StepPositive(n, x, q, y);
      x := y;
      DivideBounds(n, x);
      q := n / x;
      y := (x + n / x) / 2;
    }
    Settled(n, x, q, y);
    RootUnique(n, x);
    r := x;
  }

  lemma AboveItsRoot(n: nat)
    ensures (n + 1) * (n + 1) > n
  {
    MulOrder(1, n + 1, n + 1);
  }

  lemma DivideBounds(a: nat, b: nat)
    requires b > 0
    ensures (a / b) * b <= a < (a / b) * b + b
    ensures b * (a / b) <= a < b * (a / b) + b
  {
    assert a == b * (a / b) + a % b;
  }

  lemma StepPositive(n: nat, x: nat, q: nat, y: nat)
    requires n >= 2 && NewtonStep(n, x, q, y)
    ensures y > 0
  {
  }

  lemma Settled(n: nat, x: nat, q: nat, y: nat)
    requires NewtonStep(n, x, q, y) && y >= x
    ensures x * x <= n
  {
    MulOrder(x, q, x);
  }

  // --- decimals ---------------------------------------------------------------------------

  function Pow10(k: nat): (p: nat)
    ensures p > 0
  {
    if k == 0 then 1 else 10 * Pow10(k - 1)
  }

  /** A decimal shift, by what it does to the decimals of the two common kinds of token. */
  lemma Pow10Shifts(k: nat)
    ensures Pow10(0) == 1 && Pow10(k + 1) == 10 * Pow10(k)
    ensures Pow10(6) == 1_000_000 && Pow10(12) == 1_000_000_000_000
  {
    assert Pow10(3) == 1000;
    assert Pow10(6) == 1000 * Pow10(3) by { assert Pow10(5) == 100 * Pow10(3); }
    Pow10Adds(6, 6);
  }

  lemma {:induction false} Pow10Adds(a: nat, b: nat)
    ensures Pow10(a + b) == Pow10(a) * Pow10(b)
  {
    if a > 0 { Pow10Adds(a - 1, b); }
  }

  // --- conversions --------------------------------------------------------------------------

  function Times(a: nat, b: nat): nat { a * b }

  /** Big-integer division of non-negatives. */
  function Over(a: nat, b: nat): (q: nat)
    requires b > 0
    ensures q * b <= a < q * b + b
  {
    DivideBounds(a, b);
    a / b
  }

  /** What is under the root: the raw price times 2^192, for either sign of the decimal shift. */
  function Radicand(priceE18: nat, dec0: nat, dec1: nat): nat
  {
    if dec1 >= dec0 then Over(Times(Times(priceE18, Q192), Pow10(dec1 - dec0)), E18)
    else Over(Times(priceE18, Q192), Denominator(dec0 - dec1))
  }

  function Denominator(shift: nat): (d: nat)
    ensures d > 0
  {
    MultipleBounds(E18, Pow10(shift));
    E18 * Pow10(shift)
  }

  /** Price to square-root price; a price that is not positive is refused. */
  method SqrtPriceFromPrice(priceE18: int, dec0: nat, dec1: nat) returns (s: Option<nat>)
    ensures s == if priceE18 <= 0 then None else Some(Root(Radicand(priceE18, dec0, dec1)))
  {
    if priceE18 <= 0 { return None; }
    var num, den := Times(priceE18, Q192), E18;
    if dec1 >= dec0 { num := Times(num, Pow10(dec1 - dec0)); } else { den := Denominator(dec0 - dec1); }
    var root := Isqrt(Over(num, den));
    s := Some(root);
  }

  /** The price in raw units, as 1e18 fixed point. */
  function RawPrice(s: nat): nat
  {
    Over(Times(Times(s, s), E18), Q192)
  }

  /** Square-root price to price. */
  function PriceFromSqrtPrice(s: nat, dec0: nat, dec1: nat): nat
  {
    Over(Times(RawPrice(s), Pow10(dec0)), Pow10(dec1))
  }

  lemma OverMonotone(a: nat, b: nat, d: nat)
    requires d > 0 && a <= b
    ensures Over(a, d) <= Over(b, d)
  {
    QuotientAtLeast(b, d, a / d);
  }

  /** A higher price never gives a lower square-root price. */
  lemma SqrtPriceIsMonotone(p: nat, q: nat, dec0: nat, dec1: nat)
    requires p <= q
    ensures Root(Radicand(p, dec0, dec1)) <= Root(Radicand(q, dec0, dec1))
  {
    MulOrder(p, q, Q192);
    if dec1 >= dec0 {
      MulOrder(Times(p, Q192), Times(q, Q192), Pow10(dec1 - dec0));
      OverMonotone(Times(Times(p, Q192), Pow10(dec1 - dec0)), Times(Times(q, Q192), Pow10(dec1 - dec0)), E18);
    } else {
      OverMonotone(Times(p, Q192), Times(q, Q192), Denominator(dec0 - dec1));
    }
    var m, n := Radicand(p, dec0, dec1), Radicand(q, dec0, dec1);
    RootOrder(m, n, Root(m), Root(n));
  }

  /** `x` is the quotient of `top` by `den`, rounded down. */
  predicate Quotient(x: int, top: int, den: int)
  {
    x * den <= top < x * den + den
  }

  lemma ScaleQuotient(x: int, top: int, den: int, c: int)
    requires c > 0 && Quotient(x, top, den)
    ensures Quotient(x, top * c, den * c)
  {
    MulOrder(x * den, top, c);
    MulOrder(top, x * den + den, c);
    Distribute(x * den, den, c);
    Assoc(x, den, c);
  }

  /** Both branches bracket the same fraction: price * 2^192 * 10^dec1 over 1e18 * 10^dec0. */
  lemma RadicandBrackets(p: nat, dec0: nat, dec1: nat)
    ensures Brackets(Radicand(p, dec0, dec1), p, Pow10(dec0), Pow10(dec1))
  {
    if dec1 >= dec0 {
      WhenMoreDecimals(p, dec0, dec1 - dec0);
    } else {
      WhenFewerDecimals(p, dec1, dec0 - dec1);
    }
  }

  predicate Brackets(x: nat, p: nat, u: nat, v: nat)
  {
    Quotient(x, p * Q192 * v, E18 * u)
  }

  lemma WhenMoreDecimals(p: nat, dec0: nat, shift: nat)
    ensures Brackets(Over(Times(Times(p, Q192), Pow10(shift)), E18), p, Pow10(dec0), Pow10(dec0 + shift))
  {
    var k, c := Pow10(shift), Pow10(dec0);
    Pow10Adds(dec0, shift);
    ScaleQuotient(Over(Times(Times(p, Q192), k), E18), Times(Times(p, Q192), k), E18, c);
    Assoc(p * Q192, c, k);
  }

  lemma WhenFewerDecimals(p: nat, dec1: nat, shift: nat)
    ensures Brackets(Over(Times(p, Q192), Denominator(shift)), p, Pow10(dec1 + shift), Pow10(dec1))
  {
    var k, c := Pow10(shift), Pow10(dec1);
    Pow10Adds(dec1, shift);
    ScaleQuotient(Over(Times(p, Q192), Denominator(shift)), Times(p, Q192), Denominator(shift), c);
    Assoc(E18, k, c);
    Assoc(E18, c, k);
  }

  /** A round trip as its four roundings. `x` is the radicand, `r` its root, `raw` the price in raw
      units, `back` the price that comes back; `u` is 10^dec0, `v` is 10^dec1, `e` the fixed-point unit
      and `q` the square-root scale. */
  predicate Trip(p: nat, x: nat, r: nat, raw: nat, back: nat, u: nat, v: nat, e: nat, q: nat)
  {
    && u > 0 && v > 0 && e > 0 && q > 0
    && Quotient(x, p * q * v, e * u)
    && IsRoot(x, r)
    && Quotient(raw, r * r * e, q)
    && Quotient(back, raw * u, v)
  }

  lemma TripNeverGains(p: nat, x: nat, r: nat, raw: nat, back: nat, u: nat, v: nat, e: nat, q: nat)
    requires Trip(p, x, r, raw, back, u, v, e, q)
    ensures back <= p
  {
    MulOrder(back * v, raw * u, q);
    MulOrder(raw * q, r * r * e, u);
    MulOrder(r * r, x, e * u);
    Assoc(raw, u, q);
    Assoc(r * r, e, u);
    Assoc(back, v, q);
    Assoc(p, q, v);
    BackIsNoMore(back * (v * q), p * (q * v), back, p, v, q);
  }

  lemma BackIsNoMore(a: int, b: int, back: nat, p: nat, v: nat, q: nat)
    requires v > 0 && q > 0 && a == back * (v * q) && b == p * (q * v) && a <= b
    ensures back <= p
  {
    assert v * q == q * v;
    MultipleBounds(v, q);
    MulCancels(back, p, v * q);
  }

  /** `back` is short of `p` by less than one step of the result plus what the root (`2r+1` radicand
      units) and the raw price (one raw unit) can lose, all in units of one `q`-th of a step. */
  predicate LosesLittle(p: nat, back: nat, r: nat, u: nat, v: nat, e: nat, q: nat)
  {
    p * q * v < (back * v + v) * q + (q + (2 * r + 1) * e) * u
  }

  /** The root loses at most `2r+1` units of the radicand, the raw price one, the last division one. */
  lemma TripLosesLittle(p: nat, x: nat, r: nat, raw: nat, back: nat, u: nat, v: nat, e: nat, q: nat)
    requires Trip(p, x, r, raw, back, u, v, e, q)
    ensures LosesLittle(p, back, r, u, v, e, q)
  {
    RootExpands(x, r);
    MulOrder(x + 1, r * r + (2 * r + 1), e * u);
    Distribute(x, 1, e * u);
    Distribute(r * r, 2 * r + 1, e * u);
    Assoc(r * r, e, u);
    Assoc(2 * r + 1, e, u);
    MulOrder(r * r * e, raw * q + q, u);
    Distribute(raw * q, q, u);
    Assoc(raw, u, q);
    MulOrder(raw * u, back * v + v, q);
    Distribute(q, (2 * r + 1) * e, u);
  }

  lemma RootExpands(x: nat, r: nat)
    requires IsRoot(x, r)
    ensures r * r <= x && x + 1 <= r * r + (2 * r + 1)
  {
    assert (r + 1) * (r + 1) == r * r + (2 * r + 1);
  }

  lemma RoundTripIsTrip(p: nat, dec0: nat, dec1: nat)
    ensures var r := Root(Radicand(p, dec0, dec1));
      Trip(p, Radicand(p, dec0, dec1), r, RawPrice(r), PriceFromSqrtPrice(r, dec0, dec1),
           Pow10(dec0), Pow10(dec1), E18, Q192)
  {
    RadicandBrackets(p, dec0, dec1);
  }

  /** Price to square-root price and back, for every price and either sign of the decimal shift: never
      above the original, and short of it by little. */
  lemma PriceRoundTrip(p: nat, dec0: nat, dec1: nat)
    ensures var r := Root(Radicand(p, dec0, dec1));
      var back := PriceFromSqrtPrice(r, dec0, dec1);
      back <= p && LosesLittle(p, back, r, Pow10(dec0), Pow10(dec1), E18, Q192)
  {
    var x := Radicand(p, dec0, dec1);
    var r := Root(x);
    RoundTripIsTrip(p, dec0, dec1);
    TripNeverGains(p, x, r, RawPrice(r), PriceFromSqrtPrice(r, dec0, dec1), Pow10(dec0), Pow10(dec1), E18, Q192);
    TripLosesLittle(p, x, r, RawPrice(r), PriceFromSqrtPrice(r, dec0, dec1), Pow10(dec0), Pow10(dec1), E18, Q192);
  }

  /** When token1 has at least as many decimals as token0, and the square-root price is not extreme,
      the price comes back within two units in its last place. */
  lemma PriceRoundTripIsClose(p: nat, dec0: nat, dec1: nat)
    requires dec1 >= dec0
    requires (2 * Root(Radicand(p, dec0, dec1)) + 1) * E18 <= Q192
    ensures p - 2 <= PriceFromSqrtPrice(Root(Radicand(p, dec0, dec1)), dec0, dec1) <= p
  {
    var r := Root(Radicand(p, dec0, dec1));
    PriceRoundTrip(p, dec0, dec1);
    Pow10Adds(dec1 - dec0, dec0);
    MulOrder(1, Pow10(dec1 - dec0), Pow10(dec0));
    WithinTwo(p, PriceFromSqrtPrice(r, dec0, dec1), (2 * r + 1) * E18, Pow10(dec0), Pow10(dec1), Q192);
  }

  lemma WithinTwo(p: nat, back: nat, slack: nat, u: nat, v: nat, q: nat)
    requires 0 < u <= v && q > 0 && slack <= q
    requires p * q * v < (back * v + v) * q + (q + slack) * u
    ensures p - 2 <= back
  {
    MulOrder(q + slack, 2 * q, u);
    MulOrder(u, v, 2 * q);
    Assoc(back, v, q);
    Distribute(back * v, v, q);
    Distribute(back, 3, v * q);
    Assoc(p, q, v);
    ThreeSteps(p, back, u, v, q);
  }

  lemma ThreeSteps(p: nat, back: nat, u: nat, v: nat, q: nat)
    requires v > 0 && q > 0
    requires p * (q * v) < (back + 3) * (v * q)
    ensures p - 2 <= back
  {
    assert q * v == v * q;
    MultipleBounds(v, q);
    MulCancels(p, back + 3, v * q);
  }
}
