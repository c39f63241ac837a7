/** One vault, one block: the evaluation the keeper runs on every head, with everything it reads
    from the chain as inputs and everything it prints as a sequence of line kinds. */
module Keeper {
  import opened Wrappers
  import opened Ticks
  import opened Decide
  import opened Regime
  import PriceTrail

  // --- what it is configured with ---------------------------------------------------

  datatype Config = Config(
    spacing: int,
    baseHalfWidthMult: int,
    elevatedHalfWidthMult: int,
    limitWidthMult: int,
    rebalanceThresholdMult: int,
    refreshEnabled: bool,
    refreshTicks: int,
    foldEnabled: bool,
    foldMinShare: real,
    foldMinLimitShare: real,
    minIntervalSecs: int,
    dwellSecs: int,
    twapEnabled: bool,
    twapWindowSecs: int,
    minTwapWindowSecs: int,
    maxDevTicks: int,
    allowUnsafeSpot: bool,
    oracleEnabled: bool,
    oracleMaxAgeSecs: int,
    oracleMaxDevTicks: int,
    regimeEnabled: bool,
    thresholds: Thresholds,
    pauseCheckEnabled: bool,
    indexerEnabled: bool,
    volRefreshSecs: int,
    compoundEnabled: bool,
    compoundIntervalSecs: int,
    proxied: bool,
    dryRun: bool)

  /** What the configuration schema enforces on the fields the proofs rely on. */
  predicate WellFormed(cfg: Config)
  {
    && cfg.spacing > 0
    && cfg.baseHalfWidthMult > 0
    && cfg.elevatedHalfWidthMult > 0
    && cfg.limitWidthMult > 0
    && cfg.rebalanceThresholdMult >= 0
    && cfg.minIntervalSecs >= 0
    && cfg.dwellSecs > 0
  }

  datatype ProxyCaps = ProxyCaps(
    maxTranslation: int,
    maxWidth: int,
    minIntervalSecs: int,
    lastRebalanceTs: int,
    exempted: bool)

  // --- what it reads: `None` is a call that threw -----------------------------------

  datatype Position = Position(
    spot: int,
    base: Band,
    limit: Band,
    limitLiquidity: nat,
    legs: Legs,
    seed: Option<SeedReads>,
    nav: Option<real>)

  datatype SeedReads = SeedReads(baseLiquidity: nat, totalSupply: nat)

  datatype OracleReading = OracleReading(tick: int, ageSecs: nat, price: real)

  /** A vol fetch: the ratio to the median, or a miss that may or may not have logged a line. */
  datatype VolFetch = Ratio(ratio: real) | Missed(logged: bool)

  /** How a sweep that was allowed to run went. */
  datatype Sweep =
    | SweepReadsThrew
    | NothingToSweep
    | BelowMinimum
    | GasQuoteThrew
    | SweepRefused(reason: SkipReason)
    | SweepFailed(reason: SkipReason)
    | Swept

  /** How a submission goes: confirmed, mined at some time without the keeper learning of it, or never
      mined. The keeper knows which only of a confirmed one; the time is the mining block's. */
  datatype Submission =
    | Confirmed(landTs: int)
    | MinedUnseen(landTs: int)
    | NotMined

  datatype Inputs = Inputs(
    now: int,
    position: Option<Position>,
    caps: Option<ProxyCaps>,
    historyAge: Option<nat>,
    twapTick: Option<int>,
    oracle: Option<OracleReading>,
    reservePaused: Option<bool>,
    vol: VolFetch,
    sweep: Sweep,
    belowGasFloor: Option<bool>,
    amountsReadable: bool,
    side: Side,
    preflightOk: bool,
    submission: Submission)

  // --- what it remembers ------------------------------------------------------------

  datatype KeeperState = KeeperState(
    lastRebalanceTs: int,
    dwellSince: int,
    refreshDwellSince: int,
    foldDwellSince: int,
    regime: RegimeState,
    prices: seq<PriceTrail.Sample>,
    volFetchedAt: Option<int>,
    lastCompoundTs: int)

  const PRICE_WINDOW_SECS: nat := 2 * 60 * 60

  /** A fresh state; only the last rebalance time is recovered from the chain. */
  function InitialState(lastRebalanceTs: int): KeeperState
  {
    KeeperState(lastRebalanceTs, 0, 0, 0, BLANK, [], None, 0)
  }

  // --- what it says -----------------------------------------------------------------

  datatype Winner = Recenter | Refresh | Fold | Hold

  datatype GateReason =
    | TwapHistory
    | TwapDev(tick: int, dev: int)
    | TwapUnavailable
    | SpotUnsafe
    | OracleStale
    | OracleDev(tick: int, dev: int)
    | OracleUnreadable

  datatype SkipReason = GateSkip(gate: GateReason) | RegimeSkip(regime: Regime) | OtherSkip

  datatype Line =
    | Summary(spot: int, base: Band, winner: Winner, compoundDue: bool, reason: Reason)
    | Failure
    | Arming(leg: Winner, heldSecs: int, requiredSecs: int)
    | MinInterval(elapsedSecs: int, requiredSecs: int)
    | TwapOk(tick: int, dev: int)
    | OracleOk(tick: int, dev: int, ageSecs: int)
    | VolLine
    | Noise
    | RegimeChanged(regime: Regime)
    | RegimeElevated
    | NoRegimeFeed
    | CompoundSkipped(why: SkipReason)
    | CompoundInfo
    | CompoundSubmitted
    | Compounded
    | SkipExtreme
    | SkipGate(gate: GateReason)
    | SkipGas
    | ClampWalk
    | SkipTranslation
    | SkipWidth
    | PlanLine(plan: Plan)
    | DryRunLine
    | PreflightRevertLine
    | Submitting
    | LandedLine(kind: Winner)

  datatype Exit =
    | ExitHold
    | ExitArming
    | ExitCooldown
    | ExitCompoundOnly
    | ExitNoRegimeFeed
    | ExitRegimeExtreme
    | ExitGateBlocked
    | ExitGasFloor
    | ExitClampUnworkable
    | ExitWidthCap
    | ExitDryRun
    | ExitPreflightRevert
    | ExitLanded
    | ExitError

  datatype Plan = Plan(kind: Winner, base: Band, limit: Band, side: Side)

  /** What one evaluation did: the exit it took, what it printed, the plan it reached, whether the
      price gates ran, and when its transaction is mined, if it ever is. */
  datatype Report = Report(
    exit: Exit,
    lines: seq<Line>,
    plan: Option<Plan>,
    gated: bool,
    mined: Option<int>)

  datatype Step = Step(state: KeeperState, report: Report)

  // --- triggers ---------------------------------------------------------------------

  datatype Decision = ReadThrew | Decided(winner: Winner, reason: Reason)

  /** At most one trigger: drift (or a seed), else refresh, else fold. */
  function Triggers(cfg: Config, p: Position): Decision
  {
    var drift := ShouldRebalance(p.spot, p.base, cfg.spacing, cfg.rebalanceThresholdMult);
    var hasBase := p.base.upper > p.base.lower;
    if drift.fires then Decided(Recenter, drift.reason)
    else if hasBase && p.limitLiquidity == 0 && p.seed.None? then ReadThrew
    else if hasBase && p.limitLiquidity == 0
         && ShouldDeploySeed(p.seed.value.baseLiquidity, p.limitLiquidity, p.seed.value.totalSupply).fires
    then Decided(Recenter, Seed)
    else
      var refresh := ShouldRefreshLimit(p.spot, p.limit, p.limitLiquidity, cfg.refreshTicks);
      if cfg.refreshEnabled && hasBase && refresh.fires then Decided(Refresh, refresh.reason)
      else if cfg.foldEnabled && hasBase then
        var first := ShouldFold(p.legs, p.limitLiquidity, None, cfg.foldMinShare, cfg.foldMinLimitShare);
        if first.fires && cfg.foldMinLimitShare > 0.0 && p.nav.None? then ReadThrew
        else
          var fold := FoldInTwoReads(p.legs, p.limitLiquidity, if p.nav.Some? then p.nav.value else 0.0,
                                     cfg.foldMinShare, cfg.foldMinLimitShare);
          if fold.fires then Decided(Fold, fold.reason) else Decided(Hold, drift.reason)
      else Decided(Hold, drift.reason)
  }

  /** The trigger a block's reads put forward, if the evaluation got as far as seeing one. It depends
      on nothing the keeper remembers. */
  function Seen(cfg: Config, i: Inputs): Option<Winner>
  {
    if i.position.None? then None
    else
      match Triggers(cfg, i.position.value)
      case ReadThrew => None
      case Decided(w, _) => Some(w)
  }

  // --- dwell and cooldown -----------------------------------------------------------

  function Clock(s: KeeperState, w: Winner): int
  {
    match w
    case Recenter => s.dwellSince
    case Refresh => s.refreshDwellSince
    case Fold => s.foldDwellSince
    case Hold => 0
  }

  function StepClock(since: int, trigger: bool, now: int): int
  {
    if !trigger then 0 else if since == 0 then now else since
  }

  function StepDwells(s: KeeperState, w: Winner, now: int): KeeperState
  {
    s.(dwellSince := StepClock(s.dwellSince, w == Recenter, now),
       refreshDwellSince := StepClock(s.refreshDwellSince, w == Refresh, now),
       foldDwellSince := StepClock(s.foldDwellSince, w == Fold, now))
  }

  function DwellMet(cfg: Config, s: KeeperState, w: Winner, now: int): bool
  {
    w != Hold && now - Clock(s, w) >= cfg.dwellSecs
  }

  function MinIntervalSecs(cfg: Config, caps: Option<ProxyCaps>): int
  {
    Max(cfg.minIntervalSecs, if caps.Some? then caps.value.minIntervalSecs else 0)
  }

  function LastRebalance(s: KeeperState, caps: Option<ProxyCaps>): int
  {
    Max(s.lastRebalanceTs, if caps.Some? then caps.value.lastRebalanceTs else 0)
  }

  function CoolingDown(cfg: Config, s: KeeperState, caps: Option<ProxyCaps>, now: int): bool
  {
    LastRebalance(s, caps) > 0 && now - LastRebalance(s, caps) < MinIntervalSecs(cfg, caps)
  }

  // --- price gates ------------------------------------------------------------------

  datatype Gate = Gate(
    failed: Option<GateReason>,
    twapTick: Option<int>,
    oraclePrice: Option<real>,
    feedHealthy: bool,
    lines: seq<Line>)

  function CheckPrice(cfg: Config, i: Inputs, spot: int): Gate
  {
    if cfg.twapEnabled then
      if i.historyAge.None? then Gate(Some(TwapUnavailable), None, None, true, [])
      else if (if cfg.twapWindowSecs < i.historyAge.value then cfg.twapWindowSecs else i.historyAge.value)
              < cfg.minTwapWindowSecs then
        Gate(Some(TwapHistory), None, None, true, [])
      else if i.twapTick.None? then Gate(Some(TwapUnavailable), None, None, true, [])
      else
        var dev := Abs(spot - i.twapTick.value);
        if dev > cfg.maxDevTicks then
          Gate(Some(TwapDev(i.twapTick.value, dev)), i.twapTick, None, true, [])
        else CheckOracle(cfg, i, spot, i.twapTick, [TwapOk(i.twapTick.value, dev)])
    else if !cfg.dryRun && !cfg.allowUnsafeSpot then Gate(Some(SpotUnsafe), None, None, true, [])
    else CheckOracle(cfg, i, spot, None, [])
  }

  function CheckOracle(cfg: Config, i: Inputs, spot: int, twapTick: Option<int>, lines: seq<Line>): Gate
  {
    if !cfg.oracleEnabled then Gate(None, twapTick, None, true, lines)
    else if i.oracle.None? then Gate(Some(OracleUnreadable), twapTick, None, false, lines)
    else
      var o := i.oracle.value;
      var dev := Abs((if twapTick.Some? then twapTick.value else spot) - o.tick);
      if o.ageSecs > cfg.oracleMaxAgeSecs then
        Gate(Some(OracleStale), twapTick, Some(o.price), true, lines)
      else if dev > cfg.oracleMaxDevTicks then
        Gate(Some(OracleDev(o.tick, dev)), twapTick, Some(o.price), true, lines)
      else
        Gate(None, twapTick, Some(o.price), true, lines + [OracleOk(o.tick, dev, o.ageSecs)])
  }

  // --- regime -----------------------------------------------------------------------

  datatype RegimeStep = RegimeStep(state: KeeperState, decision: RegimeDecision, lines: seq<Line>)

  /** The price trail after this evaluation's feed price, if there was one, joined it. */
  function Trail(prices: seq<PriceTrail.Sample>, feed: Option<real>, now: int): seq<PriceTrail.Sample>
  {
    if feed.None? then prices
    else PriceTrail.Window(PriceTrail.Append(prices, PriceTrail.Sample(now, feed.value)), PRICE_WINDOW_SECS)
  }

  function EvaluateRegime(cfg: Config, s: KeeperState, i: Inputs, gate: Gate): RegimeStep
  {
    var prices := Trail(s.prices, gate.oraclePrice, i.now);
    var fetches := cfg.indexerEnabled
      && (s.volFetchedAt.None? || i.now - s.volFetchedAt.value >= cfg.volRefreshSecs);
    var ratio := if fetches && i.vol.Ratio? then Some(i.vol.ratio) else None;
    var d := NextRegime(
      RegimeInput(ratio,
        PriceTrail.RelativeMove(prices, 15 * 60, i.now),
        PriceTrail.RelativeMove(prices, 60 * 60, i.now),
        gate.feedHealthy,
        if cfg.pauseCheckEnabled then i.reservePaused else Some(false)),
      cfg.thresholds, s.regime, i.now);
    RegimeStep(
      s.(prices := prices,
         volFetchedAt := if ratio.Some? then Some(i.now) else s.volFetchedAt,
         regime := d.state),
      d,
      (if ratio.Some? then [VolLine] else if fetches && i.vol.Missed? && i.vol.logged then [Noise] else [])
      + (if d.changed then [RegimeChanged(d.regime)] else [])
      + (if d.regime == Elevated then [RegimeElevated] else []))
  }

  // --- compound ---------------------------------------------------------------------

  function CompoundDue(cfg: Config, s: KeeperState, now: int): bool
  {
    cfg.compoundEnabled && now - s.lastCompoundTs >= cfg.compoundIntervalSecs
  }

  /** Why a due sweep may not run, if it may not: the same gates as a rebalance, and a calm market. */
  function CompoundRefusal(gate: Gate, regime: Regime): Option<SkipReason>
  {
    if gate.failed.Some? then Some(GateSkip(gate.failed.value))
    else if regime != Calm then Some(RegimeSkip(regime))
    else None
  }

  function SweepLines(w: Sweep): seq<Line>
  {
    match w
    case SweepReadsThrew => []
    case NothingToSweep => [CompoundInfo]
    case BelowMinimum => [CompoundInfo]
    case GasQuoteThrew => [CompoundInfo, CompoundInfo]
    case SweepRefused(r) => [CompoundInfo, CompoundInfo, CompoundSkipped(r)]
    case SweepFailed(r) => [CompoundInfo, CompoundInfo, CompoundSubmitted, CompoundSkipped(r)]
    case Swept => [CompoundInfo, CompoundInfo, CompoundSubmitted, Compounded]
  }

  predicate SweepThrows(w: Sweep)
  {
    w.SweepReadsThrew? || w.GasQuoteThrew?
  }

  // --- the plan ---------------------------------------------------------------------

  /** The base band a plan would place, with what was said on the way: refusing is an exit. */
  datatype BasePlan = BaseAt(band: Band, clamped: bool) | Unworkable | TooWide(clamped: bool)

  function PlanBase(cfg: Config, w: Winner, base: Band, caps: Option<ProxyCaps>, tick: int, mult: int): BasePlan
    requires cfg.spacing > 0
  {
    if w != Recenter then BaseAt(base, false)
    else
      var target := CenteredBand(tick, mult, cfg.spacing);
      if caps.None? || caps.value.exempted then BaseAt(target, false)
      else
        match ClampBandTranslation(target, base, caps.value.maxTranslation, mult, cfg.spacing)
        case CapNotWorkable => Unworkable
        case Clamp(band, clamped) =>
          if Abs((band.upper - band.lower) - (base.upper - base.lower)) > caps.value.maxWidth
          then TooWide(clamped)
          else BaseAt(band, clamped)
  }

  // --- the evaluation ---------------------------------------------------------------

  function Quit(s: KeeperState, exit: Exit, lines: seq<Line>, gated: bool): Step
  {
    Step(s, Report(exit, lines, None, gated, None))
  }

  /** A throw anywhere: the caller prints the failure line; what was already written stays written. */
  function Throw(s: KeeperState, lines: seq<Line>, gated: bool): Step
  {
    Quit(s, ExitError, lines + [Failure], gated)
  }

  function Evaluate(cfg: Config, s: KeeperState, i: Inputs): Step
    requires cfg.spacing > 0
  {
    if i.position.None? then Throw(s, [], false)
    else
      var p := i.position.value;
      match Triggers(cfg, p)
      case ReadThrew => Throw(s, [], false)
      case Decided(w, reason) =>
        AfterTriggers(cfg, s, i, p, w, reason)
  }

  function AfterTriggers(cfg: Config, s: KeeperState, i: Inputs, p: Position, w: Winner, reason: Reason): Step
    requires cfg.spacing > 0
  {
    var due := CompoundDue(cfg, s, i.now);
    var s := StepDwells(s, w, i.now);
    AfterDwell(cfg, s, i, p, w, due,
      [Summary(p.spot, p.base, w, due, reason)] + ArmingLines(cfg, s, w, i.now))
  }

  function ArmingLines(cfg: Config, s: KeeperState, w: Winner, now: int): seq<Line>
  {
    if w == Hold || DwellMet(cfg, s, w, now) then [] else [Arming(w, now - Clock(s, w), cfg.dwellSecs)]
  }

  /** What dwell and cooldown make of a trigger: armed or not, and the exit it takes if it is not and
      nothing else is due. The caps are read only for a trigger whose dwell is met. */
  datatype Readiness = CapsThrew | Ready(armed: bool, caps: Option<ProxyCaps>, lines: seq<Line>, wait: Exit)

  function StepCooldown(cfg: Config, s: KeeperState, i: Inputs, w: Winner, said: seq<Line>): Readiness
  {
    if !DwellMet(cfg, s, w, i.now) then Ready(false, None, said, if w == Hold then ExitHold else ExitArming)
    else if cfg.proxied && i.caps.None? then CapsThrew
    else
      var caps := if cfg.proxied then i.caps else None;
      if CoolingDown(cfg, s, caps, i.now) then
        var line := MinInterval(i.now - LastRebalance(s, caps), MinIntervalSecs(cfg, caps));
        Ready(false, caps, said + [line], ExitCooldown)
      else Ready(true, caps, said, ExitHold)
  }

  /** Neither dwell nor cooldown holds back a due sweep. */
  function AfterDwell(cfg: Config, s: KeeperState, i: Inputs, p: Position, w: Winner, due: bool,
                      said: seq<Line>): Step
    requires cfg.spacing > 0
  {
    match StepCooldown(cfg, s, i, w, said)
    case CapsThrew => Throw(s, said, false)
    case Ready(armed, caps, lines, wait) =>
      if !armed && !due then Quit(s, wait, lines, false)
      else AfterCooldown(cfg, s, i, p, w, caps, armed, due, lines)
  }

  /** Price gates and regime, shared by the rebalance and the sweep. */
  function AfterCooldown(cfg: Config, s: KeeperState, i: Inputs, p: Position, w: Winner,
                         caps: Option<ProxyCaps>, armed: bool, due: bool, said: seq<Line>): Step
    requires cfg.spacing > 0
  {
    var gate := CheckPrice(cfg, i, p.spot);
    if cfg.regimeEnabled then
      var r := EvaluateRegime(cfg, s, i, gate);
      var mult := BandMultForRegime(r.decision.regime, cfg.baseHalfWidthMult, cfg.elevatedHalfWidthMult);
      AfterRegime(cfg, r.state, i, p, w, caps, armed, due, gate, r.decision.regime, mult, said + gate.lines + r.lines)
    else if !gate.feedHealthy then Quit(s, ExitNoRegimeFeed, said + gate.lines + [NoRegimeFeed], true)
    else AfterRegime(cfg, s, i, p, w, caps, armed, due, gate, Calm, cfg.baseHalfWidthMult, said + gate.lines)
  }

  datatype SweepStep = SweepStep(state: KeeperState, lines: seq<Line>, threw: bool)

  /** A due sweep: refused by the gates or the market, or stamped and then run, so that a failing one
      backs off. */
  function StepSweep(s: KeeperState, i: Inputs, due: bool, gate: Gate, regime: Regime, said: seq<Line>): SweepStep
  {
    var refusal := CompoundRefusal(gate, regime);
    if !due then SweepStep(s, said, false)
    else if refusal.Some? then SweepStep(s, said + [CompoundSkipped(refusal.value)], false)
    else SweepStep(s.(lastCompoundTs := i.now), said + SweepLines(i.sweep), SweepThrows(i.sweep))
  }

  function AfterRegime(cfg: Config, s: KeeperState, i: Inputs, p: Position, w: Winner,
                       caps: Option<ProxyCaps>, armed: bool, due: bool, gate: Gate, regime: Regime,
                       mult: int, said: seq<Line>): Step
    requires cfg.spacing > 0
  {
    var r := StepSweep(s, i, due, gate, regime, said);
    if r.threw then Throw(r.state, r.lines, true)
    else AfterSweep(cfg, r.state, i, p, w, caps, armed, gate, regime, mult, r.lines)
  }

  /** The reasons an armed trigger may still not act. */
  function AfterSweep(cfg: Config, s: KeeperState, i: Inputs, p: Position, w: Winner,
                      caps: Option<ProxyCaps>, armed: bool, gate: Gate, regime: Regime,
                      mult: int, said: seq<Line>): Step
    requires cfg.spacing > 0
  {
    if !armed then Quit(s, ExitCompoundOnly, said, true)
    else if regime == Extreme then Quit(s, ExitRegimeExtreme, said + [SkipExtreme, Noise], true)
    else if gate.failed.Some? then Quit(s, ExitGateBlocked, said + [SkipGate(gate.failed.value)], true)
    else if i.belowGasFloor.None? then Throw(s, said, true)
    else if i.belowGasFloor.value then Quit(s, ExitGasFloor, said + [SkipGas], true)
    else Place(cfg, s, i, p, w, caps, if gate.twapTick.Some? then gate.twapTick.value else p.spot, mult, said)
  }

  function Place(cfg: Config, s: KeeperState, i: Inputs, p: Position, w: Winner,
                 caps: Option<ProxyCaps>, tick: int, mult: int, said: seq<Line>): Step
    requires cfg.spacing > 0
  {
    match PlanBase(cfg, w, p.base, caps, tick, mult)
    case Unworkable => Quit(s, ExitClampUnworkable, said + [SkipTranslation], true)
    case TooWide(clamped) =>
      Quit(s, ExitWidthCap, said + (if clamped then [ClampWalk] else []) + [SkipWidth], true)
    case BaseAt(band, clamped) =>
      var said := said + if clamped then [ClampWalk] else [];
      if !i.amountsReadable then Throw(s, said, true)
      else
        var plan := Plan(w, band, LimitRange(p.spot, cfg.spacing, i.side, cfg.limitWidthMult), i.side);
        var said := said + [PlanLine(plan)];
        if cfg.dryRun then Step(s, Report(ExitDryRun, said + [DryRunLine], Some(plan), true, None))
        else if !i.preflightOk then
          Step(s, Report(ExitPreflightRevert, said + [PreflightRevertLine], Some(plan), true, None))
        else Submit(s, i, plan, said + [Submitting])
  }

  function Submit(s: KeeperState, i: Inputs, plan: Plan, said: seq<Line>): Step
  {
    match i.submission
    case NotMined => Step(s, Report(ExitError, said + [Failure], Some(plan), true, None))
    case MinedUnseen(ts) => Step(s, Report(ExitError, said + [Failure], Some(plan), true, Some(ts)))
    case Confirmed(ts) =>
      Step(Landed(s, i.now), Report(ExitLanded, said + [LandedLine(plan.kind)], Some(plan), true, Some(ts)))
  }

  /** The writes after a confirmed submission: the decision time starts the cooldown, and no trigger
      keeps the dwell it had served. */
  function Landed(s: KeeperState, now: int): KeeperState
  {
    s.(lastRebalanceTs := now, dwellSince := 0, refreshDwellSince := 0, foldDwellSince := 0)
  }
}
