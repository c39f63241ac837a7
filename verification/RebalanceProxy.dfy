/** The on-chain checks a rebalance has to pass in proxy mode. */
module RebalanceProxy {
  import opened Ticks
  import opened Keeper

  const FULL_RANGE := 886800

  /** The contract's midpoint: one formula for a band that straddles zero, another for the rest. */
  function ProxyMid(b: Band): int
  {
    if b.lower < 0 && b.upper > 0 then b.lower + TruncDiv(Abs(b.lower) + b.upper, 2)
    else b.lower + TruncDiv(b.upper - b.lower, 2)
  }

  predicate IsWithinRange(maxTranslation: int, last: Band, next: Band)
  {
    var a, b := ProxyMid(last), ProxyMid(next);
    (if b > a then b - a else a - b) <= maxTranslation
  }

  predicate IsWidthChangeWithinRange(maxWidth: int, last: Band, next: Band)
  {
    var oldWidth, newWidth := last.upper - last.lower, next.upper - next.lower;
    newWidth >= oldWidth - maxWidth && newWidth <= oldWidth + maxWidth
  }

  predicate FullRange(b: Band)
  {
    b.lower <= -FULL_RANGE && b.upper >= FULL_RANGE
  }

  /** `rebalance` gets past its require clauses in a block at `blockTs`. */
  predicate Accepts(caps: ProxyCaps, last: Band, next: Band, blockTs: int)
  {
    && (caps.lastRebalanceTs == 0 || blockTs >= caps.lastRebalanceTs + caps.minIntervalSecs || FullRange(next))
    && (caps.exempted || FullRange(next)
        || (IsWithinRange(caps.maxTranslation, last, next) && IsWidthChangeWithinRange(caps.maxWidth, last, next)))
  }

  /** The keeper's single midpoint formula is both of the contract's. */
  lemma ProxyMidIsBandMid(b: Band)
    ensures ProxyMid(b) == BandMid(b)
  {
  }
}
