/** Uncollected fees of a position, computed from wrapping 256-bit accumulators, against what the
    position earned: growth accrued while the price was inside its range. */
module FeesOwed {

  /** 2^256: the accumulators are unsigned words and every subtraction on them wraps. */
  const WORD: nat := 0x1_0000000000000000_0000000000000000_0000000000000000_0000000000000000
  const Q128: nat := 0x1_0000000000000000_0000000000000000

  function Wrap(x: int): nat { x % WORD }

  datatype Pool = Pool(tick: int, global: nat, lowerOutside: nat, upperOutside: nat)

  datatype Position = Position(lower: int, upper: int, liquidity: nat, insideLast: nat, owed: nat)

  function Inside(p: Pool, lower: int, upper: int): nat
  {
    var below := if p.tick >= lower then p.lowerOutside else Wrap(p.global - p.lowerOutside);
    var above := if p.tick < upper then p.upperOutside else Wrap(p.global - p.upperOutside);
    Wrap(p.global - below - above)
  }

  /** The fee on some growth: liquidity times it, as a 128-bit fixed-point fraction, rounded down. */
  function Share(liquidity: nat, growth: nat): nat
  {
    liquidity * growth / Q128
  }

  function Accrued(p: Pool, pos: Position): nat
  {
    Share(pos.liquidity, Wrap(Inside(p, pos.lower, pos.upper) - pos.insideLast))
  }

  /** Fees owed to one position: what is already credited plus what has accrued since. */
  function PositionFees(p: Pool, pos: Position): nat
  {
    if pos.lower == pos.upper then 0 else Accrued(p, pos) + pos.owed
  }

  // --- what happens to a pool and a position ----------------------------------------------

  datatype Event =
    | Accrue(growth: nat)
    | Move(tick: int)
    | Poke(liquidity: nat)
    | Collect(amount: nat)

  /** The pool and the position, and beside them the plain account: growth earned in range since the
      last poke and before it, the pokes so far, and what has been paid out. */
  datatype Ledger = Ledger(pool: Pool, pos: Position, sincePoke: nat, settled: nat, pokes: nat, paid: nat)

  function Earned(l: Ledger): nat { l.settled + l.sincePoke }

  predicate InRange(l: Ledger)
  {
    l.pos.lower <= l.pool.tick < l.pos.upper
  }

  /** Crossing a tick flips the growth recorded outside it. */
  function Flip(crossed: bool, global: nat, outside: nat): nat
  {
    if crossed then Wrap(global - outside) else outside
  }

  function MoveTo(p: Pool, lower: int, upper: int, tick: int): Pool
  {
    Pool(tick, p.global,
         Flip((p.tick >= lower) != (tick >= lower), p.global, p.lowerOutside),
         Flip((p.tick >= upper) != (tick >= upper), p.global, p.upperOutside))
  }

  function StepLedger(l: Ledger, e: Event): Ledger
  {
    match e
    case Accrue(g) =>
      l.(pool := l.pool.(global := Wrap(l.pool.global + g)),
         sincePoke := if InRange(l) then l.sincePoke + g else l.sincePoke)
    case Move(t) => l.(pool := MoveTo(l.pool, l.pos.lower, l.pos.upper, t))
    case Poke(liquidity) =>
      l.(pos := l.pos.(owed := l.pos.owed + Accrued(l.pool, l.pos),
                       insideLast := Inside(l.pool, l.pos.lower, l.pos.upper),
                       liquidity := liquidity),
         settled := l.settled + l.sincePoke, sincePoke := 0, pokes := l.pokes + 1)
    case Collect(amount) =>
      var out := if amount <= l.pos.owed then amount else l.pos.owed;
      l.(pos := l.pos.(owed := l.pos.owed - out), paid := l.paid + out)
  }

  function RunLedger(l: Ledger, h: seq<Event>): Ledger
  {
    if h == [] then l else StepLedger(RunLedger(l, h[..|h| - 1]), h[|h| - 1])
  }

  /** A position just poked, on a pool in any state: whatever its ticks recorded before does not matter. */
  predicate Opened(l: Ledger)
  {
    && l.pos.lower < l.pos.upper
    && l.pos.insideLast == Inside(l.pool, l.pos.lower, l.pos.upper)
    && l.pos.owed == l.sincePoke == l.settled == l.pokes == l.paid == 0
  }

  // --- wrapping arithmetic --------------------------------------------------------------------

  lemma WrapCongruent(a: int, b: int, k: int)
    requires a == b + k * WORD
    ensures Wrap(a) == Wrap(b)
  {
  }

  lemma WrapTerms(a: int, b: int)
    ensures Wrap(a - Wrap(b)) == Wrap(a - b)
    ensures Wrap(a + Wrap(b)) == Wrap(a + b)
  {
    WrapCongruent(a - Wrap(b), a - b, b / WORD);
    WrapCongruent(a + Wrap(b), a + b, -(b / WORD));
  }

  /** Adding the same growth to both sides of the account. */
  lemma AddBoth(inside: int, last: int, since: int, d: int)
    requires Wrap(inside - last) == Wrap(since)
    ensures Wrap(Wrap(inside + d) - last) == Wrap(since + d)
  {
    WrapTerms(-last, inside + d);
    WrapTerms(d, inside - last);
    WrapTerms(d, since);
  }

  lemma WrapSmall(a: int)
    requires 0 <= a < WORD
    ensures Wrap(a) == a
  {
  }

  /** The growth inside, without the inner wraps. */
  function InsideExact(p: Pool, lower: int, upper: int): int
  {
    p.global - (if p.tick >= lower then p.lowerOutside else p.global - p.lowerOutside)
             - (if p.tick < upper then p.upperOutside else p.global - p.upperOutside)
  }

  lemma InsideIs(p: Pool, lower: int, upper: int)
    ensures Inside(p, lower, upper) == Wrap(InsideExact(p, lower, upper))
  {
    var lo := p.global - p.lowerOutside;
    var hi := p.global - p.upperOutside;
    var below := if p.tick >= lower then p.lowerOutside else lo;
    WrapTerms(p.global - (if p.tick < upper then p.upperOutside else Wrap(hi)), lo);
    WrapTerms(p.global - below, hi);
  }

  /** A tick move, across either bound or both, changes nothing that is inside. */
  lemma MoveKeepsInside(p: Pool, lower: int, upper: int, tick: int)
    requires lower < upper
    ensures Inside(MoveTo(p, lower, upper, tick), lower, upper) == Inside(p, lower, upper)
  {
    var q := MoveTo(p, lower, upper, tick);
    InsideIs(p, lower, upper);
    InsideIs(q, lower, upper);
    SameInside(p, q, lower, upper);
  }

  function Unwrapped(crossed: bool, global: nat, outside: nat): int
  {
    if crossed then global - outside else outside
  }

  lemma FlipCongruent(global: nat, outside: nat, crossed: bool)
    ensures exists k: int :: Flip(crossed, global, outside) == Unwrapped(crossed, global, outside) + k * WORD
  {
    if crossed {
      var k := -((global - outside) / WORD);
      assert Flip(crossed, global, outside) == (global - outside) + k * WORD;
    } else {
      assert Flip(crossed, global, outside) == outside + 0 * WORD;
    }
  }

  lemma SameInside(p: Pool, q: Pool, lower: int, upper: int)
    requires lower < upper && q == MoveTo(p, lower, upper, q.tick)
    ensures Wrap(InsideExact(q, lower, upper)) == Wrap(InsideExact(p, lower, upper))
  {
    FlipCongruent(p.global, p.lowerOutside, (p.tick >= lower) != (q.tick >= lower));
    FlipCongruent(p.global, p.upperOutside, (p.tick >= upper) != (q.tick >= upper));
    var crossLower, crossUpper := (p.tick >= lower) != (q.tick >= lower), (p.tick >= upper) != (q.tick >= upper);
    var j: int :| q.lowerOutside == Unwrapped(crossLower, p.global, p.lowerOutside) + j * WORD;
    var k: int :| q.upperOutside == Unwrapped(crossUpper, p.global, p.upperOutside) + k * WORD;
    var a := if q.tick >= lower then -j else j;
    var b := if q.tick < upper then -k else k;
    assert InsideExact(q, lower, upper) == InsideExact(p, lower, upper) + a * WORD + b * WORD;
    WrapCongruent(InsideExact(q, lower, upper), InsideExact(p, lower, upper), a + b);
  }

  /** Growth adds to the inside exactly while the price is in range. */
  lemma AccrueGrowsInside(p: Pool, lower: int, upper: int, g: nat)
    requires lower < upper
    ensures Inside(p.(global := Wrap(p.global + g)), lower, upper)
         == Wrap(Inside(p, lower, upper) + if lower <= p.tick < upper then g else 0)
  {
    var q := p.(global := Wrap(p.global + g));
    InsideIs(p, lower, upper);
    InsideIs(q, lower, upper);
    var d := if lower <= p.tick < upper then g else 0;
    var k := (p.global + g) / WORD;
    assert q.global == p.global + g - k * WORD;
    WrapTerms(d, InsideExact(p, lower, upper));
    WrapCongruent(InsideExact(q, lower, upper), InsideExact(p, lower, upper) + d,
                  if lower <= p.tick < upper then -k else 0);
  }

  // --- equal to the plain account ----------------------------------------------------------------

  predicate Balanced(l: Ledger)
  {
    && l.pos.lower < l.pos.upper
    && Wrap(Inside(l.pool, l.pos.lower, l.pos.upper) - l.pos.insideLast) == Wrap(l.sincePoke)
  }

  lemma StepKeepsBalance(l: Ledger, e: Event)
    requires Balanced(l)
    ensures Balanced(StepLedger(l, e))
  {
    match e
    case Accrue(g) =>
      AccrueGrowsInside(l.pool, l.pos.lower, l.pos.upper, g);
      AddBoth(Inside(l.pool, l.pos.lower, l.pos.upper), l.pos.insideLast, l.sincePoke, if InRange(l) then g else 0);
    case Move(t) => MoveKeepsInside(l.pool, l.pos.lower, l.pos.upper, t);
    case Poke(_) =>
    case Collect(_) =>
  }

  /** For every sequence of accruals, tick moves, pokes and collections, the wrapped difference the
      formula takes is the growth earned in range since the last poke, modulo 2^256. */
  lemma {:induction false} InsideSinceLastIsEarned(l: Ledger, h: seq<Event>)
    requires Opened(l)
    ensures var r := RunLedger(l, h);
      Wrap(Inside(r.pool, r.pos.lower, r.pos.upper) - r.pos.insideLast) == Wrap(r.sincePoke)
    ensures RunLedger(l, h).pos.lower < RunLedger(l, h).pos.upper
  {
    if h != [] {
      InsideSinceLastIsEarned(l, h[..|h| - 1]);
      StepKeepsBalance(RunLedger(l, h[..|h| - 1]), h[|h| - 1]);
    }
  }

  /** So the fees reported are what is credited plus liquidity times that growth, over 2^128; the
      growth itself, without any modulus, as long as one poke-to-poke stretch earned less than 2^256. */
  lemma FeesAreLiquidityTimesEarned(l: Ledger, h: seq<Event>)
    requires Opened(l)
    ensures var r := RunLedger(l, h);
      && PositionFees(r.pool, r.pos) == r.pos.owed + Share(r.pos.liquidity, Wrap(r.sincePoke))
      && (r.sincePoke < WORD ==> PositionFees(r.pool, r.pos) == r.pos.owed + Share(r.pos.liquidity, r.sincePoke))
  {
    InsideSinceLastIsEarned(l, h);
    if RunLedger(l, h).sincePoke < WORD { WrapSmall(RunLedger(l, h).sincePoke); }
  }

  /** Collecting pays what is asked as far as it is owed, and nothing is lost between the two. */
  lemma CollectPaysWhatIsOwed(l: Ledger, amount: nat)
    ensures var r := StepLedger(l, Collect(amount));
      && r.paid + r.pos.owed == l.paid + l.pos.owed
      && (amount <= l.pos.owed ==> r.paid == l.paid + amount)
      && (amount > l.pos.owed ==> r.pos.owed == 0)
      && r.pool == l.pool && r.pos.insideLast == l.pos.insideLast && r.pos.liquidity == l.pos.liquidity
  {
  }

  /** A poke credits what had accrued and starts the count again. */
  lemma PokeCredits(l: Ledger, liquidity: nat)
    requires l.pos.lower < l.pos.upper
    ensures var r := StepLedger(l, Poke(liquidity));
      && r.pos.owed == PositionFees(l.pool, l.pos) && r.pos.liquidity == liquidity && r.paid == l.paid
      && PositionFees(r.pool, r.pos) == r.pos.owed
  {
    WrapSmall(0);
    assert liquidity * 0 == 0;
  }

  /** A position with no range is owed nothing. */
  lemma EmptyRangeOwesNothing(p: Pool, pos: Position)
    requires pos.lower == pos.upper
    ensures PositionFees(p, pos) == 0
  {
  }

  // --- splitting by pokes ----------------------------------------------------------------------------

  predicate KeepsLiquidity(h: seq<Event>, liquidity: nat)
  {
    forall k :: 0 <= k < |h| && h[k].Poke? ==> h[k].liquidity == liquidity
  }

  lemma FloorSum(a: nat, b: nat)
    ensures 0 <= (a + b) / Q128 - a / Q128 - b / Q128 <= 1
  {
  }

  lemma ShareSplits(liquidity: nat, x: nat, y: nat)
    ensures 0 <= Share(liquidity, x + y) - Share(liquidity, x) - Share(liquidity, y) <= 1
  {
    FloorSum(liquidity * x, liquidity * y);
    assert liquidity * (x + y) == liquidity * x + liquidity * y;
  }

  /** Credited and paid against the one-shot fee on what has been settled. */
  predicate Settled(liquidity: nat, l: Ledger)
  {
    && l.pos.liquidity == liquidity
    && l.pos.lower < l.pos.upper
    && (l.pokes == 0 ==> l.settled == 0 && l.pos.owed + l.paid == 0)
    && (l.pokes > 0 ==> 0 <= Share(liquidity, l.settled) - (l.pos.owed + l.paid) <= l.pokes - 1)
  }

  lemma StepSettles(liquidity: nat, l: Ledger, e: Event)
    requires Settled(liquidity, l) && Balanced(l)
    requires e.Poke? ==> e.liquidity == liquidity && l.sincePoke < WORD
    ensures Settled(liquidity, StepLedger(l, e))
  {
    if e.Poke? {
      WrapSmall(l.sincePoke);
      PokeSettles(liquidity, l);
    }
  }

  lemma PokeSettles(liquidity: nat, l: Ledger)
    requires Settled(liquidity, l)
    ensures var credited := l.pos.owed + Share(liquidity, l.sincePoke) + l.paid;
      0 <= Share(liquidity, l.settled + l.sincePoke) - credited <= l.pokes
  {
    ShareSplits(liquidity, l.settled, l.sincePoke);
    if l.pokes == 0 { assert l.settled + l.sincePoke == l.sincePoke; }
  }

  lemma {:induction false} EarnedGrows(l: Ledger, h: seq<Event>)
    requires h != []
    ensures Earned(RunLedger(l, h[..|h| - 1])) <= Earned(RunLedger(l, h))
  {
  }

  lemma {:induction false} RunSettles(l: Ledger, h: seq<Event>)
    requires Opened(l) && KeepsLiquidity(h, l.pos.liquidity)
    requires Earned(RunLedger(l, h)) < WORD
    ensures Settled(l.pos.liquidity, RunLedger(l, h)) && Balanced(RunLedger(l, h))
  {
    if h != [] {
      EarnedGrows(l, h);
      RunSettles(l, h[..|h| - 1]);
      StepSettles(l.pos.liquidity, RunLedger(l, h[..|h| - 1]), h[|h| - 1]);
      StepKeepsBalance(RunLedger(l, h[..|h| - 1]), h[|h| - 1]);
    }
  }

  /** With constant liquidity, what was paid, credited and is still accruing adds up to the one-shot
      fee on everything earned, short of it by at most one unit per poke. */
  lemma PokesLoseAtMostOneEach(l: Ledger, h: seq<Event>)
    requires Opened(l) && KeepsLiquidity(h, l.pos.liquidity)
    requires Earned(RunLedger(l, h)) < WORD
    ensures var r := RunLedger(l, h);
      0 <= Share(l.pos.liquidity, Earned(r)) - (PositionFees(r.pool, r.pos) + r.paid) <= r.pokes
  {
    var r := RunLedger(l, h);
    RunSettles(l, h);
    WrapSmall(r.sincePoke);
    ShareSplits(l.pos.liquidity, r.settled, r.sincePoke);
  }
}
