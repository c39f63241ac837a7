/** The evaluation as a table: what asks for a rebalance, from the vault's position alone; which way every block
    ends, from its reads and what the keeper remembers; and what it remembers afterwards. The staged evaluation
    is shown to follow it line by line. */
module Outcomes {
  import opened Wrappers
  import opened Ticks
  import opened Decide
  import opened Regime
  import opened Keeper
  import opened KeeperRuns
  import opened PriceSafety
  import opened FeedTrail
  import PriceTrail

  // --- what asks ----------------------------------------------------------------------------------

  predicate HasBase(p: Position)
  {
    p.base.lower < p.base.upper
  }

  /** Spot is out of the band, or further from its middle than the threshold; a middle between two ticks is the
      one nearer to zero. */
  predicate Drifts(cfg: Config, p: Position)
  {
    var sum := p.base.lower + p.base.upper;
    var mid := if sum >= 0 then sum / 2 else -(-sum / 2);
    || p.spot < p.base.lower || p.spot > p.base.upper
    || p.spot - mid > cfg.rebalanceThresholdMult * cfg.spacing
    || mid - p.spot > cfg.rebalanceThresholdMult * cfg.spacing
  }

  /** Shares are out and nothing is minted: a deposit nobody put to work. */
  predicate SeedIdles(p: Position)
  {
    && HasBase(p) && p.limitLiquidity == 0
    && p.seed.Some? && p.seed.value.baseLiquidity == 0 && p.seed.value.totalSupply > 0
  }

  predicate SeedUnread(p: Position)
  {
    HasBase(p) && p.limitLiquidity == 0 && p.seed.None?
  }

  /** The limit is left behind on one side. */
  predicate Strands(cfg: Config, p: Position)
  {
    && cfg.refreshEnabled && HasBase(p) && p.limitLiquidity > 0 && p.limit.lower < p.limit.upper
    && ((p.spot < p.limit.lower && p.limit.lower - p.spot > cfg.refreshTicks)
        || (p.spot > p.limit.upper && p.spot - p.limit.upper > cfg.refreshTicks)
        || (p.limit.lower <= p.spot <= p.limit.upper && 0 > cfg.refreshTicks))
  }

  /** Each leg is its share of the limit. */
  predicate Mixes(cfg: Config, p: Position)
  {
    var sum := p.legs.value0 + p.legs.value1;
    && cfg.foldEnabled && HasBase(p) && p.limitLiquidity > 0 && sum > 0.0
    && p.legs.value0 >= cfg.foldMinShare * sum && p.legs.value1 >= cfg.foldMinShare * sum
  }

  /** And the limit is its share of the vault, where that is asked and the vault is worth anything. */
  predicate LargeEnough(cfg: Config, p: Position)
  {
    var sum := p.legs.value0 + p.legs.value1;
    cfg.foldMinLimitShare == 0.0 || (p.nav.Some? && (p.nav.value > 0.0 ==> sum >= cfg.foldMinLimitShare * p.nav.value))
  }

  predicate RealLegs(cfg: Config, p: Position)
  {
    p.legs.value0 >= 0.0 && p.legs.value1 >= 0.0 && cfg.foldMinLimitShare >= 0.0
  }

  lemma DriftIs(cfg: Config, p: Position)
    ensures ShouldRebalance(p.spot, p.base, cfg.spacing, cfg.rebalanceThresholdMult).fires <==> Drifts(cfg, p)
  {
  }

  lemma StrandIs(cfg: Config, p: Position)
    ensures Strands(cfg, p) <==>
      && cfg.refreshEnabled && HasBase(p)
      && ShouldRefreshLimit(p.spot, p.limit, p.limitLiquidity, cfg.refreshTicks).fires
  {
  }

  lemma MixIs(cfg: Config, p: Position)
    requires RealLegs(cfg, p)
    ensures Mixes(cfg, p) <==>
      && cfg.foldEnabled && HasBase(p)
      && ShouldFold(p.legs, p.limitLiquidity, None, cfg.foldMinShare, cfg.foldMinLimitShare).fires
  {
    var sum := p.legs.value0 + p.legs.value1;
    if sum > 0.0 { FoldsExactly(p.legs, p.limitLiquidity, 0.0, cfg.foldMinShare, 0.0); }
  }

  lemma FoldIs(cfg: Config, p: Position, nav: real)
    requires RealLegs(cfg, p) && (p.nav.Some? ==> nav == p.nav.value)
    requires Mixes(cfg, p) && cfg.foldMinLimitShare > 0.0 ==> p.nav.Some?
    ensures Mixes(cfg, p) && LargeEnough(cfg, p) <==>
      && cfg.foldEnabled && HasBase(p)
      && FoldInTwoReads(p.legs, p.limitLiquidity, nav, cfg.foldMinShare, cfg.foldMinLimitShare).fires
  {
    MixIs(cfg, p);
    var sum := p.legs.value0 + p.legs.value1;
    if sum > 0.0 {
      FoldsExactly(p.legs, p.limitLiquidity, nav, cfg.foldMinShare, cfg.foldMinLimitShare);
    } else {
      EmptyNeverFolds(p.legs, p.limitLiquidity, nav, cfg.foldMinShare, cfg.foldMinLimitShare);
    }
  }

  /** What asks, in this order: the band, or a seed to place; the limit; a mix to bank. A read that is needed and
      throws ends the evaluation. */
  function Asks(cfg: Config, p: Position): Option<Winner>
  {
    if Drifts(cfg, p) then Some(Recenter)
    else if SeedUnread(p) then None
    else if SeedIdles(p) then Some(Recenter)
    else if Strands(cfg, p) then Some(Refresh)
    else if Mixes(cfg, p) && cfg.foldMinLimitShare > 0.0 && p.nav.None? then None
    else if Mixes(cfg, p) && LargeEnough(cfg, p) then Some(Fold)
    else Some(Hold)
  }

  lemma SeenIsAsked(cfg: Config, i: Inputs)
    requires i.position.Some? ==> RealLegs(cfg, i.position.value)
    ensures Seen(cfg, i) == if i.position.None? then None else Asks(cfg, i.position.value)
  {
    if i.position.Some? {
      var p := i.position.value;
      DriftIs(cfg, p);
      StrandIs(cfg, p);
      MixIs(cfg, p);
      if !(Mixes(cfg, p) && cfg.foldMinLimitShare > 0.0 && p.nav.None?) {
        FoldIs(cfg, p, if p.nav.Some? then p.nav.value else 0.0);
      }
    }
  }

  // --- what holds it back -------------------------------------------------------------------------

  /** The trigger was first seen, unbroken, at least the dwell ago. */
  predicate Served(cfg: Config, s: KeeperState, w: Winner, now: int)
  {
    var since := match w
      case Recenter => s.dwellSince
      case Refresh => s.refreshDwellSince
      case Fold => s.foldDwellSince
      case Hold => 0;
    w != Hold && (if since == 0 then cfg.dwellSecs <= 0 else now - since >= cfg.dwellSecs)
  }

  /** The later of the keeper's own stamp and the proxy's is less than the longer interval ago. */
  predicate Cools(cfg: Config, s: KeeperState, i: Inputs)
  {
    var read := cfg.proxied && i.caps.Some?;
    var stamp := if read && i.caps.value.lastRebalanceTs > s.lastRebalanceTs then i.caps.value.lastRebalanceTs
                 else s.lastRebalanceTs;
    && stamp > 0
    && (i.now - stamp < cfg.minIntervalSecs || i.now - stamp < if read then i.caps.value.minIntervalSecs else 0)
  }

  predicate SweepIsDue(cfg: Config, s: KeeperState, now: int)
  {
    cfg.compoundEnabled && now >= s.lastCompoundTs + cfg.compoundIntervalSecs
  }

  /** The feed was asked, which it is once the average has nothing to object, and could not be read. */
  predicate FeedDead(cfg: Config, i: Inputs, spot: int)
  {
    && cfg.oracleEnabled && i.oracle.None?
    && (if cfg.twapEnabled then
          && i.historyAge.Some? && i.historyAge.value >= cfg.minTwapWindowSecs
          && cfg.twapWindowSecs >= cfg.minTwapWindowSecs
          && i.twapTick.Some? && Abs(spot - i.twapTick.value) <= cfg.maxDevTicks
        else cfg.dryRun || cfg.allowUnsafeSpot)
  }

  lemma FeedDeadIs(cfg: Config, i: Inputs, spot: int)
    ensures CheckPrice(cfg, i, spot).feedHealthy <==> !FeedDead(cfg, i, spot)
    ensures FeedDead(cfg, i, spot) ==> !Trusted(cfg, i, spot)
  {
  }

  /** A feed price is told whenever the feed was asked and answered, trusted or not. */
  function ToldPrice(cfg: Config, i: Inputs, spot: int): Option<real>
  {
    if cfg.oracleEnabled && i.oracle.Some? && FeedDead(cfg, i.(oracle := None), spot) then Some(i.oracle.value.price)
    else None
  }

  lemma ToldPriceIs(cfg: Config, i: Inputs, spot: int)
    ensures CheckPrice(cfg, i, spot).oraclePrice == ToldPrice(cfg, i, spot)
  {
  }

  /** What the regime is judged on. */
  function Reading(cfg: Config, s: KeeperState, i: Inputs, spot: int): RegimeInput
  {
    var price := ToldPrice(cfg, i, spot);
    var prices := Fed(s.prices, if price.Some? then Some(PriceTrail.Sample(i.now, price.value)) else None);
    var fetch := cfg.indexerEnabled && (s.volFetchedAt.None? || i.now >= s.volFetchedAt.value + cfg.volRefreshSecs);
    RegimeInput(
      if fetch && i.vol.Ratio? then Some(i.vol.ratio) else None,
      PriceTrail.RelativeMove(prices, 900, i.now),
      PriceTrail.RelativeMove(prices, 3600, i.now),
      !FeedDead(cfg, i, spot),
      if cfg.pauseCheckEnabled then i.reservePaused else Some(false))
  }

  function JudgedRegime(cfg: Config, s: KeeperState, i: Inputs, spot: int): Regime
  {
    if cfg.regimeEnabled then NextRegime(Reading(cfg, s, i, spot), cfg.thresholds, s.regime, i.now).regime else Calm
  }

  lemma RegimeIs(cfg: Config, s: KeeperState, i: Inputs, spot: int)
    ensures var r := EvaluateRegime(cfg, s, i, CheckPrice(cfg, i, spot));
      r.decision == NextRegime(Reading(cfg, s, i, spot), cfg.thresholds, s.regime, i.now)
  {
    FeedDeadIs(cfg, i, spot);
    ToldPriceIs(cfg, i, spot);
  }

  // --- how it ends ------------------------------------------------------------------------------------

  predicate GatesRun(cfg: Config, s: KeeperState, i: Inputs, w: Winner)
  {
    && !(Served(cfg, s, w, i.now) && cfg.proxied && i.caps.None?)
    && (SweepIsDue(cfg, s, i.now) || (Served(cfg, s, w, i.now) && !Cools(cfg, s, i)))
  }

  /** The end of an evaluation whose gates did not run. */
  function EarlyEnd(cfg: Config, s: KeeperState, i: Inputs, w: Winner): Exit
  {
    if w == Hold then ExitHold
    else if !Served(cfg, s, w, i.now) then ExitArming
    else if cfg.proxied && i.caps.None? then ExitError
    else ExitCooldown
  }

  /** A sweep is run when due, on a trusted price, in a calm market. */
  predicate SweepRuns(cfg: Config, s: KeeperState, i: Inputs, spot: int)
  {
    SweepIsDue(cfg, s, i.now) && Trusted(cfg, i, spot) && JudgedRegime(cfg, s, i, spot) == Calm
  }

  /** The end of one whose gates did. */
  function LateEnd(cfg: Config, s: KeeperState, i: Inputs, p: Position, w: Winner): Exit
    requires cfg.spacing > 0
  {
    if !cfg.regimeEnabled && FeedDead(cfg, i, p.spot) then ExitNoRegimeFeed
    else if SweepRuns(cfg, s, i, p.spot) && i.sweep in {SweepReadsThrew, GasQuoteThrew} then ExitError
    else if !Served(cfg, s, w, i.now) || Cools(cfg, s, i) then ExitCompoundOnly
    else if JudgedRegime(cfg, s, i, p.spot) == Extreme then ExitRegimeExtreme
    else if !Trusted(cfg, i, p.spot) then ExitGateBlocked
    else if i.belowGasFloor.None? then ExitError
    else if i.belowGasFloor.value then ExitGasFloor
    else PlanEnd(cfg, s, i, p, w)
  }

  function MultFor(cfg: Config, regime: Regime): int
  {
    if regime == Calm then cfg.baseHalfWidthMult else Max(cfg.baseHalfWidthMult, cfg.elevatedHalfWidthMult)
  }

  /** The end of one that got as far as a plan. */
  function PlanEnd(cfg: Config, s: KeeperState, i: Inputs, p: Position, w: Winner): Exit
    requires cfg.spacing > 0
  {
    var mult := MultFor(cfg, JudgedRegime(cfg, s, i, p.spot));
    match PlanBase(cfg, w, p.base, if cfg.proxied then i.caps else None, PlacementTick(cfg, i, p.spot), mult)
    case Unworkable => ExitClampUnworkable
    case TooWide(_) => ExitWidthCap
    case BaseAt(_, _) =>
      if !i.amountsReadable then ExitError
      else if cfg.dryRun then ExitDryRun
      else if !i.preflightOk then ExitPreflightRevert
      else if i.submission.Confirmed? then ExitLanded
      else ExitError
  }

  lemma PlaceEnds(cfg: Config, s0: KeeperState, s: KeeperState, i: Inputs, p: Position, w: Winner, mult: int,
                  said: seq<Line>)
    requires cfg.spacing > 0
    requires mult == MultFor(cfg, JudgedRegime(cfg, s0, i, p.spot))
    ensures Place(cfg, s, i, p, w, if cfg.proxied then i.caps else None, PlacementTick(cfg, i, p.spot), mult, said)
              .report.exit == PlanEnd(cfg, s0, i, p, w)
  {
  }

  lemma SweepEnds(cfg: Config, s0: KeeperState, s: KeeperState, i: Inputs, p: Position, w: Winner,
                  caps: Option<ProxyCaps>, armed: bool, gate: Gate, regime: Regime, mult: int, said: seq<Line>)
    requires cfg.spacing > 0 && gate == CheckPrice(cfg, i, p.spot) && regime == JudgedRegime(cfg, s0, i, p.spot)
    requires mult == MultFor(cfg, regime)
    requires armed ==> caps == if cfg.proxied then i.caps else None
    ensures AfterSweep(cfg, s, i, p, w, caps, armed, gate, regime, mult, said).report.exit ==
      if !armed then ExitCompoundOnly
      else if regime == Extreme then ExitRegimeExtreme
      else if !Trusted(cfg, i, p.spot) then ExitGateBlocked
      else if i.belowGasFloor.None? then ExitError
      else if i.belowGasFloor.value then ExitGasFloor
      else PlanEnd(cfg, s0, i, p, w)
  {
    GateOpensExactly(cfg, i, p.spot);
    if armed { PlaceEnds(cfg, s0, s, i, p, w, mult, said); }
  }

  lemma RegimeEnds(cfg: Config, s0: KeeperState, s: KeeperState, i: Inputs, p: Position, w: Winner,
                   caps: Option<ProxyCaps>, armed: bool, gate: Gate, regime: Regime, mult: int, said: seq<Line>)
    requires cfg.spacing > 0 && gate == CheckPrice(cfg, i, p.spot) && regime == JudgedRegime(cfg, s0, i, p.spot)
    requires mult == MultFor(cfg, regime)
    requires armed ==> caps == if cfg.proxied then i.caps else None
    requires armed == (Served(cfg, s0, w, i.now) && !Cools(cfg, s0, i))
    requires cfg.regimeEnabled || !FeedDead(cfg, i, p.spot)
    ensures AfterRegime(cfg, s, i, p, w, caps, armed, SweepIsDue(cfg, s0, i.now), gate, regime, mult, said).report.exit
         == LateEnd(cfg, s0, i, p, w)
  {
    GateOpensExactly(cfg, i, p.spot);
    var r := StepSweep(s, i, SweepIsDue(cfg, s0, i.now), gate, regime, said);
    SweepEnds(cfg, s0, r.state, i, p, w, caps, armed, gate, regime, mult, r.lines);
  }

  predicate SameJudgement(s0: KeeperState, s: KeeperState)
  {
    s.prices == s0.prices && s.regime == s0.regime && s.volFetchedAt == s0.volFetchedAt
  }

  lemma GatesEnd(cfg: Config, s0: KeeperState, s: KeeperState, i: Inputs, p: Position, w: Winner,
                 caps: Option<ProxyCaps>, armed: bool, said: seq<Line>)
    requires cfg.spacing > 0 && SameJudgement(s0, s)
    requires armed ==> caps == if cfg.proxied then i.caps else None
    requires armed == (Served(cfg, s0, w, i.now) && !Cools(cfg, s0, i))
    ensures AfterCooldown(cfg, s, i, p, w, caps, armed, SweepIsDue(cfg, s0, i.now), said).report.exit
         == LateEnd(cfg, s0, i, p, w)
  {
    var gate := CheckPrice(cfg, i, p.spot);
    FeedDeadIs(cfg, i, p.spot);
    if cfg.regimeEnabled {
      var r := EvaluateRegime(cfg, s, i, gate);
      RegimeIs(cfg, s, i, p.spot);
      RegimeEnds(cfg, s0, r.state, i, p, w, caps, armed, gate, r.decision.regime,
        BandMultForRegime(r.decision.regime, cfg.baseHalfWidthMult, cfg.elevatedHalfWidthMult),
        said + gate.lines + r.lines);
    } else if gate.feedHealthy {
      RegimeEnds(cfg, s0, s, i, p, w, caps, armed, gate, Calm, cfg.baseHalfWidthMult, said + gate.lines);
    }
  }

  lemma WaitIs(cfg: Config, s0: KeeperState, i: Inputs, w: Winner, said: seq<Line>)
    ensures var s := StepDwells(s0, w, i.now); var r := StepCooldown(cfg, s, i, w, said);
      var served := Served(cfg, s0, w, i.now);
      && (r.CapsThrew? <==> served && cfg.proxied && i.caps.None?)
      && (r.Ready? ==>
            && (r.armed <==> served && !Cools(cfg, s0, i))
            && (r.armed ==> r.caps == if cfg.proxied then i.caps else None)
            && (!r.armed ==> r.wait == if w == Hold then ExitHold else if !served then ExitArming else ExitCooldown))
  {
  }

  lemma DwellEnds(cfg: Config, s0: KeeperState, i: Inputs, p: Position, w: Winner, said: seq<Line>)
    requires cfg.spacing > 0
    ensures var step := AfterDwell(cfg, StepDwells(s0, w, i.now), i, p, w, SweepIsDue(cfg, s0, i.now), said);
      && (step.report.gated <==> GatesRun(cfg, s0, i, w))
      && step.report.exit == if GatesRun(cfg, s0, i, w) then LateEnd(cfg, s0, i, p, w) else EarlyEnd(cfg, s0, i, w)
  {
    var s := StepDwells(s0, w, i.now);
    var r := StepCooldown(cfg, s, i, w, said);
    WaitIs(cfg, s0, i, w, said);
    if r.Ready? && (r.armed || SweepIsDue(cfg, s0, i.now)) {
      GatesEnd(cfg, s0, s, i, p, w, r.caps, r.armed, r.lines);
      GatesFeed(cfg, s, i, p, w, r.caps, r.armed, SweepIsDue(cfg, s0, i.now), r.lines);
    }
  }

  /** The table of ends. */
  function Outcome(cfg: Config, s: KeeperState, i: Inputs): Exit
    requires cfg.spacing > 0
  {
    if i.position.None? || Asks(cfg, i.position.value).None? then ExitError
    else
      var p, w := i.position.value, Asks(cfg, i.position.value).value;
      if GatesRun(cfg, s, i, w) then LateEnd(cfg, s, i, p, w) else EarlyEnd(cfg, s, i, w)
  }

  /** Every evaluation ends as the table says, and its gates run exactly when the table says. */
  lemma EveryEndIsTheTables(cfg: Config, s: KeeperState, i: Inputs)
    requires cfg.spacing > 0 && (i.position.Some? ==> RealLegs(cfg, i.position.value))
    ensures Evaluate(cfg, s, i).report.exit == Outcome(cfg, s, i)
    ensures Evaluate(cfg, s, i).report.gated <==>
      i.position.Some? && Asks(cfg, i.position.value).Some? && GatesRun(cfg, s, i, Asks(cfg, i.position.value).value)
  {
    SeenIsAsked(cfg, i);
    if Seen(cfg, i).Some? {
      var p, d := i.position.value, Triggers(cfg, i.position.value);
      var due := CompoundDue(cfg, s, i.now);
      var s1 := StepDwells(s, d.winner, i.now);
      DwellEnds(cfg, s, i, p, d.winner,
        [Summary(p.spot, p.base, d.winner, due, d.reason)] + ArmingLines(cfg, s1, d.winner, i.now));
    }
  }

  // --- where the band goes ------------------------------------------------------------------------

  /** Only a re-center moves the base. Uncapped it goes to its target; capped it goes there if that is within the
      translation, and else a step of the cap less two spacings that way, if that is a step at all; and in both cases
      only if its width then is within the width cap. */
  lemma AimsExactly(cfg: Config, w: Winner, base: Band, caps: Option<ProxyCaps>, tick: int, mult: int)
    requires cfg.spacing > 0
    ensures var aim := PlanBase(cfg, w, base, caps, tick, mult);
      var target := CenteredBand(tick, mult, cfg.spacing);
      && (w != Recenter ==> aim == BaseAt(base, false))
      && (w == Recenter && (caps.None? || caps.value.exempted) ==> aim == BaseAt(target, false))
      && (w == Recenter && caps.Some? && !caps.value.exempted ==>
            var cap, width := caps.value.maxTranslation, caps.value.maxWidth;
            var far := BandMid(target) - BandMid(base) > cap || BandMid(base) - BandMid(target) > cap;
            var step := cap - 2 * cfg.spacing;
            var mid := if BandMid(target) > BandMid(base) then BandMid(base) + step else BandMid(base) - step;
            var band := if far then CenteredBand(mid, mult, cfg.spacing) else target;
            var grown := (band.upper - band.lower) - (base.upper - base.lower);
            aim == if far && step <= 0 then Unworkable
                   else if grown > width || -grown > width then TooWide(far)
                   else BaseAt(band, far))
  {
  }

  // --- what it remembers ------------------------------------------------------------------------------

  predicate NoneAsked(cfg: Config, i: Inputs)
  {
    i.position.None? || Asks(cfg, i.position.value).None?
  }

  /** A dwell clock: kept while its own trigger lasts, started at the first sight of it, stopped by any other. */
  function ClockAfter(since: int, mine: bool, now: int): int
  {
    if !mine then 0 else if since == 0 then now else since
  }

  /** The state the table leaves: a confirmed landing restarts everything, any other end only steps the clocks; the
      sweep's clock moves when one is run; the regime, its trail and its volume clock move when the gates ran. */
  predicate Remembers(cfg: Config, s: KeeperState, i: Inputs, p: Position, w: Winner, after: KeeperState)
    requires cfg.spacing > 0
  {
    var late := GatesRun(cfg, s, i, w);
    var judged := late && cfg.regimeEnabled;
    var reading := Reading(cfg, s, i, p.spot);
    var price := ToldPrice(cfg, i, p.spot);
    && (if late && LateEnd(cfg, s, i, p, w) == ExitLanded then
          && after.lastRebalanceTs == i.now
          && after.dwellSince == 0 && after.refreshDwellSince == 0 && after.foldDwellSince == 0
        else
          && after.lastRebalanceTs == s.lastRebalanceTs
          && after.dwellSince == ClockAfter(s.dwellSince, w == Recenter, i.now)
          && after.refreshDwellSince == ClockAfter(s.refreshDwellSince, w == Refresh, i.now)
          && after.foldDwellSince == ClockAfter(s.foldDwellSince, w == Fold, i.now))
    && after.lastCompoundTs == (if late && SweepRuns(cfg, s, i, p.spot) then i.now else s.lastCompoundTs)
    && after.regime == (if judged then NextRegime(reading, cfg.thresholds, s.regime, i.now).state else s.regime)
    && after.volFetchedAt == (if judged && reading.volRatio.Some? then Some(i.now) else s.volFetchedAt)
    && after.prices
       == (if judged && price.Some? then Fed(s.prices, Some(PriceTrail.Sample(i.now, price.value))) else s.prices)
  }

  /** Past the regime, what stays as it came and what a landing restarts. */
  predicate Leaves(s: KeeperState, i: Inputs, swept: bool, step: Step)
  {
    && step.state.prices == s.prices && step.state.regime == s.regime && step.state.volFetchedAt == s.volFetchedAt
    && step.state.lastCompoundTs == (if swept then i.now else s.lastCompoundTs)
    && (if step.report.exit == ExitLanded then
          && step.state.lastRebalanceTs == i.now
          && step.state.dwellSince == 0 && step.state.refreshDwellSince == 0 && step.state.foldDwellSince == 0
        else step.state.lastRebalanceTs == s.lastRebalanceTs && SameClocks(step.state, s))
  }

  lemma PlaceLeaves(cfg: Config, s: KeeperState, i: Inputs, p: Position, w: Winner, caps: Option<ProxyCaps>,
                    tick: int, mult: int, said: seq<Line>)
    requires cfg.spacing > 0
    ensures Leaves(s, i, false, Place(cfg, s, i, p, w, caps, tick, mult, said))
  {
  }

  lemma SweepLeaves(cfg: Config, s: KeeperState, i: Inputs, p: Position, w: Winner, caps: Option<ProxyCaps>,
                    armed: bool, due: bool, gate: Gate, regime: Regime, mult: int, said: seq<Line>)
    requires cfg.spacing > 0
    ensures Leaves(s, i, due && gate.failed.None? && regime == Calm,
                   AfterRegime(cfg, s, i, p, w, caps, armed, due, gate, regime, mult, said))
  {
    var r := StepSweep(s, i, due, gate, regime, said);
    var tick := if gate.twapTick.Some? then gate.twapTick.value else p.spot;
    PlaceLeaves(cfg, r.state, i, p, w, caps, tick, mult, r.lines);
  }

  /** What the gates and everything after them leave. */
  predicate LateState(cfg: Config, s0: KeeperState, s: KeeperState, i: Inputs, p: Position, due: bool, step: Step)
  {
    var reading := Reading(cfg, s0, i, p.spot);
    var price := ToldPrice(cfg, i, p.spot);
    && step.state.prices == (if cfg.regimeEnabled && price.Some? then
                               Fed(s0.prices, Some(PriceTrail.Sample(i.now, price.value))) else s0.prices)
    && step.state.regime
       == (if cfg.regimeEnabled then NextRegime(reading, cfg.thresholds, s0.regime, i.now).state else s0.regime)
    && step.state.volFetchedAt
       == (if cfg.regimeEnabled && reading.volRatio.Some? then Some(i.now) else s0.volFetchedAt)
    && step.state.lastCompoundTs
       == (if due && Trusted(cfg, i, p.spot) && JudgedRegime(cfg, s0, i, p.spot) == Calm then i.now
           else s.lastCompoundTs)
    && (if step.report.exit == ExitLanded then
          && step.state.lastRebalanceTs == i.now
          && step.state.dwellSince == 0 && step.state.refreshDwellSince == 0 && step.state.foldDwellSince == 0
        else step.state.lastRebalanceTs == s.lastRebalanceTs && SameClocks(step.state, s))
  }

  lemma RegimeLeaves(cfg: Config, s: KeeperState, i: Inputs, spot: int)
    ensures var r := EvaluateRegime(cfg, s, i, CheckPrice(cfg, i, spot));
      var reading, price := Reading(cfg, s, i, spot), ToldPrice(cfg, i, spot);
      && r.state.prices
         == (if price.Some? then Fed(s.prices, Some(PriceTrail.Sample(i.now, price.value))) else s.prices)
      && r.state.volFetchedAt == (if reading.volRatio.Some? then Some(i.now) else s.volFetchedAt)
      && r.state.regime == r.decision.state
      && r.state.lastCompoundTs == s.lastCompoundTs && r.state.lastRebalanceTs == s.lastRebalanceTs
      && SameClocks(r.state, s)
  {
    ToldPriceIs(cfg, i, spot);
  }

  lemma GatesLeave(cfg: Config, s0: KeeperState, s: KeeperState, i: Inputs, p: Position, w: Winner,
                   caps: Option<ProxyCaps>, armed: bool, due: bool, said: seq<Line>)
    requires cfg.spacing > 0 && SameJudgement(s0, s)
    ensures LateState(cfg, s0, s, i, p, due, AfterCooldown(cfg, s, i, p, w, caps, armed, due, said))
  {
    var gate := CheckPrice(cfg, i, p.spot);
    GateOpensExactly(cfg, i, p.spot);
    FeedDeadIs(cfg, i, p.spot);
    if cfg.regimeEnabled {
      var r := EvaluateRegime(cfg, s, i, gate);
      RegimeIs(cfg, s, i, p.spot);
      RegimeLeaves(cfg, s, i, p.spot);
      SweepLeaves(cfg, r.state, i, p, w, caps, armed, due, gate, r.decision.regime,
        BandMultForRegime(r.decision.regime, cfg.baseHalfWidthMult, cfg.elevatedHalfWidthMult),
        said + gate.lines + r.lines);
    } else {
      SweepLeaves(cfg, s, i, p, w, caps, armed, due, gate, Calm, cfg.baseHalfWidthMult, said + gate.lines);
    }
  }

  lemma DwellLeaves(cfg: Config, s0: KeeperState, i: Inputs, p: Position, w: Winner, said: seq<Line>)
    requires cfg.spacing > 0
    ensures Remembers(cfg, s0, i, p, w,
      AfterDwell(cfg, StepDwells(s0, w, i.now), i, p, w, SweepIsDue(cfg, s0, i.now), said).state)
  {
    var s := StepDwells(s0, w, i.now);
    var r := StepCooldown(cfg, s, i, w, said);
    WaitIs(cfg, s0, i, w, said);
    DwellEnds(cfg, s0, i, p, w, said);
    if r.Ready? && (r.armed || SweepIsDue(cfg, s0, i.now)) {
      GatesLeave(cfg, s0, s, i, p, w, r.caps, r.armed, SweepIsDue(cfg, s0, i.now), r.lines);
    }
  }

  /** Every evaluation leaves what the table says, and nothing else. */
  lemma EveryStateIsTheTables(cfg: Config, s: KeeperState, i: Inputs)
    requires cfg.spacing > 0 && (i.position.Some? ==> RealLegs(cfg, i.position.value))
    ensures NoneAsked(cfg, i) ==> Evaluate(cfg, s, i).state == s
    ensures !NoneAsked(cfg, i) ==>
      Remembers(cfg, s, i, i.position.value, Asks(cfg, i.position.value).value, Evaluate(cfg, s, i).state)
  {
    SeenIsAsked(cfg, i);
    if Seen(cfg, i).Some? {
      var p, d := i.position.value, Triggers(cfg, i.position.value);
      var due := CompoundDue(cfg, s, i.now);
      var s1 := StepDwells(s, d.winner, i.now);
      DwellLeaves(cfg, s, i, p, d.winner,
        [Summary(p.spot, p.base, d.winner, due, d.reason)] + ArmingLines(cfg, s1, d.winner, i.now));
    }
  }
}
