/** What the price gates buy: nothing is planned or swept on a price that disagrees with its average or
    the feed, and the spot price can ask for a move but not choose where it goes. */
module PriceSafety {
  import opened Wrappers
  import opened Ticks
  import opened Regime
  import opened Keeper
  import opened KeeperRuns

  // --- the gate --------------------------------------------------------------------------

  /** The price is trusted: it has a long enough history and is near its own average, or checking that
      was waived; and the feed, where there is one, is fresh and near the tick a band would be put at. */
  predicate Trusted(cfg: Config, i: Inputs, spot: int)
  {
    && (cfg.twapEnabled ==>
          && i.historyAge.Some? && i.historyAge.value >= cfg.minTwapWindowSecs
          && cfg.twapWindowSecs >= cfg.minTwapWindowSecs
          && i.twapTick.Some? && Abs(spot - i.twapTick.value) <= cfg.maxDevTicks)
    && (!cfg.twapEnabled ==> cfg.dryRun || cfg.allowUnsafeSpot)
    && (cfg.oracleEnabled ==>
          && i.oracle.Some? && i.oracle.value.ageSecs <= cfg.oracleMaxAgeSecs
          && Abs(PlacementTick(cfg, i, spot) - i.oracle.value.tick) <= cfg.oracleMaxDevTicks)
  }

  /** Where a band would be centred: on the average when there is one, never on spot then. */
  function PlacementTick(cfg: Config, i: Inputs, spot: int): int
  {
    if cfg.twapEnabled && i.twapTick.Some? then i.twapTick.value else spot
  }

  lemma GateOpensExactly(cfg: Config, i: Inputs, spot: int)
    ensures CheckPrice(cfg, i, spot).failed.None? <==> Trusted(cfg, i, spot)
    ensures var g := CheckPrice(cfg, i, spot);
      g.failed.None? ==>
        && (if g.twapTick.Some? then g.twapTick.value else spot) == PlacementTick(cfg, i, spot)
        && g.feedHealthy && g.oraclePrice == (if cfg.oracleEnabled then Some(i.oracle.value.price) else None)
  {
  }

  // --- one evaluation ------------------------------------------------------------------------

  /** The regime an evaluation with an open gate runs under; it does not depend on the spot price. */
  function RegimeUnder(cfg: Config, s: KeeperState, i: Inputs): Regime
  {
    if !cfg.regimeEnabled then Calm
    else
      var price := if cfg.oracleEnabled && i.oracle.Some? then Some(i.oracle.value.price) else None;
      EvaluateRegime(cfg, s, i, Gate(None, None, price, true, [])).decision.regime
  }

  function MultUnder(cfg: Config, s: KeeperState, i: Inputs): int
  {
    BandMultForRegime(RegimeUnder(cfg, s, i), cfg.baseHalfWidthMult, cfg.elevatedHalfWidthMult)
  }

  /** Everything a plan goes by. */
  predicate WellFounded(cfg: Config, s: KeeperState, i: Inputs, p: Position, w: Winner, report: Report)
    requires cfg.spacing > 0
  {
    report.plan.Some? ==>
      && Trusted(cfg, i, p.spot)
      && RegimeUnder(cfg, s, i) != Extreme
      && i.belowGasFloor == Some(false)
      && report.plan.value.kind == w
      && report.plan.value.limit == LimitRange(p.spot, cfg.spacing, i.side, cfg.limitWidthMult)
      && PlacedAt(cfg, i, p, w, MultUnder(cfg, s, i), report.plan.value.base)
  }

  predicate PlacedAt(cfg: Config, i: Inputs, p: Position, w: Winner, mult: int, base: Band)
    requires cfg.spacing > 0
  {
    var aim := PlanBase(cfg, w, p.base, if cfg.proxied then i.caps else None, PlacementTick(cfg, i, p.spot), mult);
    aim.BaseAt? && aim.band == base
  }

  /** A sweep is stamped only when due, on a trusted price and in a calm market. */
  predicate SweptOnTrust(cfg: Config, s: KeeperState, i: Inputs, p: Position, due: bool, after: KeeperState)
  {
    after.lastCompoundTs != s.lastCompoundTs ==>
      due && Trusted(cfg, i, p.spot) && RegimeUnder(cfg, s, i) == Calm && after.lastCompoundTs == i.now
  }

  /** The gate and regime of one evaluation, as the later stages receive them. */
  predicate Judged(cfg: Config, s: KeeperState, i: Inputs, p: Position, gate: Gate, regime: Regime, mult: int)
  {
    && gate == CheckPrice(cfg, i, p.spot)
    && (gate.failed.None? ==> regime == RegimeUnder(cfg, s, i) && mult == MultUnder(cfg, s, i))
  }

  lemma PlaceFounded(cfg: Config, s: KeeperState, i: Inputs, p: Position, w: Winner, tick: int, mult: int,
                     said: seq<Line>)
    requires cfg.spacing > 0 && tick == PlacementTick(cfg, i, p.spot)
    ensures var step := Place(cfg, s, i, p, w, if cfg.proxied then i.caps else None, tick, mult, said);
      && step.state.lastCompoundTs == s.lastCompoundTs
      && (step.report.plan.Some? ==>
            && step.report.plan.value.kind == w
            && step.report.plan.value.limit == LimitRange(p.spot, cfg.spacing, i.side, cfg.limitWidthMult)
            && PlacedAt(cfg, i, p, w, mult, step.report.plan.value.base))
  {
  }

  lemma ActFounded(cfg: Config, s0: KeeperState, s: KeeperState, i: Inputs, p: Position, w: Winner,
                   caps: Option<ProxyCaps>,
                   armed: bool, gate: Gate, regime: Regime, mult: int, said: seq<Line>)
    requires cfg.spacing > 0 && Judged(cfg, s0, i, p, gate, regime, mult)
    requires armed ==> caps == if cfg.proxied then i.caps else None
    ensures var step := AfterSweep(cfg, s, i, p, w, caps, armed, gate, regime, mult, said);
      WellFounded(cfg, s0, i, p, w, step.report) && step.state.lastCompoundTs == s.lastCompoundTs
  {
    GateOpensExactly(cfg, i, p.spot);
    if armed && gate.failed.None? { PlaceFounded(cfg, s, i, p, w, PlacementTick(cfg, i, p.spot), mult, said); }
  }

  lemma SweepFounded(cfg: Config, s0: KeeperState, s: KeeperState, i: Inputs, p: Position, w: Winner,
                     caps: Option<ProxyCaps>,
                     armed: bool, due: bool, gate: Gate, regime: Regime, mult: int, said: seq<Line>)
    requires cfg.spacing > 0 && Judged(cfg, s0, i, p, gate, regime, mult) && s.lastCompoundTs == s0.lastCompoundTs
    requires armed ==> caps == if cfg.proxied then i.caps else None
    ensures var step := AfterRegime(cfg, s, i, p, w, caps, armed, due, gate, regime, mult, said);
      WellFounded(cfg, s0, i, p, w, step.report) && SweptOnTrust(cfg, s0, i, p, due, step.state)
  {
    var r := StepSweep(s, i, due, gate, regime, said);
    StampFounded(cfg, s0, s, i, p, due, gate, regime, mult, said);
    ActFounded(cfg, s0, r.state, i, p, w, caps, armed, gate, regime, mult, r.lines);
  }

  lemma StampFounded(cfg: Config, s0: KeeperState, s: KeeperState, i: Inputs, p: Position, due: bool, gate: Gate,
                     regime: Regime,
                     mult: int, said: seq<Line>)
    requires Judged(cfg, s0, i, p, gate, regime, mult) && s.lastCompoundTs == s0.lastCompoundTs
    ensures SweptOnTrust(cfg, s0, i, p, due, StepSweep(s, i, due, gate, regime, said).state)
  {
    GateOpensExactly(cfg, i, p.spot);
  }

  /** The regime step reads the gate only through the feed, and touches nothing the sweep is paced by. */
  lemma RegimeJudged(cfg: Config, s0: KeeperState, s: KeeperState, i: Inputs, p: Position)
    requires cfg.regimeEnabled && s.prices == s0.prices && s.regime == s0.regime && s.volFetchedAt == s0.volFetchedAt
    ensures var gate := CheckPrice(cfg, i, p.spot); var r := EvaluateRegime(cfg, s, i, gate);
      && Judged(cfg, s0, i, p, gate, r.decision.regime,
                BandMultForRegime(r.decision.regime, cfg.baseHalfWidthMult, cfg.elevatedHalfWidthMult))
      && r.state.lastCompoundTs == s.lastCompoundTs
  {
    GateOpensExactly(cfg, i, p.spot);
  }

  lemma GateFounded(cfg: Config, s0: KeeperState, s: KeeperState, i: Inputs, p: Position, w: Winner,
                    caps: Option<ProxyCaps>,
                    armed: bool, due: bool, said: seq<Line>)
    requires cfg.spacing > 0
    requires s.prices == s0.prices && s.regime == s0.regime && s.volFetchedAt == s0.volFetchedAt
    requires s.lastCompoundTs == s0.lastCompoundTs
    requires armed ==> caps == if cfg.proxied then i.caps else None
    ensures var step := AfterCooldown(cfg, s, i, p, w, caps, armed, due, said);
      WellFounded(cfg, s0, i, p, w, step.report) && SweptOnTrust(cfg, s0, i, p, due, step.state)
  {
    var gate := CheckPrice(cfg, i, p.spot);
    if cfg.regimeEnabled {
      var r := EvaluateRegime(cfg, s, i, gate);
      RegimeJudged(cfg, s0, s, i, p);
      SweepFounded(cfg, s0, r.state, i, p, w, caps, armed, due, gate, r.decision.regime,
        BandMultForRegime(r.decision.regime, cfg.baseHalfWidthMult, cfg.elevatedHalfWidthMult),
        said + gate.lines + r.lines);
    } else {
      SweepFounded(cfg, s0, s, i, p, w, caps, armed, due, gate, Calm, cfg.baseHalfWidthMult, said + gate.lines);
    }
  }

  lemma DwellFounded(cfg: Config, s0: KeeperState, s: KeeperState, i: Inputs, p: Position, w: Winner, due: bool,
                     said: seq<Line>)
    requires cfg.spacing > 0
    requires s.prices == s0.prices && s.regime == s0.regime && s.volFetchedAt == s0.volFetchedAt
    requires s.lastCompoundTs == s0.lastCompoundTs
    ensures var step := AfterDwell(cfg, s, i, p, w, due, said);
      WellFounded(cfg, s0, i, p, w, step.report) && SweptOnTrust(cfg, s0, i, p, due, step.state)
  {
    var r := StepCooldown(cfg, s, i, w, said);
    if r.Ready? { GateFounded(cfg, s0, s, i, p, w, r.caps, r.armed, due, r.lines); }
  }

  /** Every plan, whatever its fate, is made on a trusted price, out of the extreme regime, for the trigger
      that was seen, with its base aimed from the average and its limit to one side of spot; and every
      sweep is due, on a trusted price, in a calm market. */
  lemma EveryPlanIsWellFounded(cfg: Config, s: KeeperState, i: Inputs)
    requires cfg.spacing > 0
    ensures var step := Evaluate(cfg, s, i);
      && (Seen(cfg, i).None? ==> step.report.plan.None? && step.state.lastCompoundTs == s.lastCompoundTs)
      && (Seen(cfg, i).Some? ==>
            && WellFounded(cfg, s, i, i.position.value, Seen(cfg, i).value, step.report)
            && SweptOnTrust(cfg, s, i, i.position.value, CompoundDue(cfg, s, i.now), step.state))
  {
    if Seen(cfg, i).Some? {
      var p := i.position.value;
      var d := Triggers(cfg, p);
      var due := CompoundDue(cfg, s, i.now);
      var s1 := StepDwells(s, d.winner, i.now);
      DwellFounded(cfg, s, s1, i, p, d.winner, due,
        [Summary(p.spot, p.base, d.winner, due, d.reason)] + ArmingLines(cfg, s1, d.winner, i.now));
    }
  }

  // --- what follows from it ------------------------------------------------------------------

  function WithSpot(i: Inputs, spot: int): Inputs
    requires i.position.Some?
  {
    i.(position := Some(i.position.value.(spot := spot)))
  }

  /** Spot can only trigger: with averaging on, two evaluations of the same block that differ in the spot
      price alone and plan the same kind of action plan the very same base band. */
  lemma SpotDoesNotMoveTheBand(cfg: Config, s: KeeperState, i: Inputs, spot: int)
    requires cfg.spacing > 0 && cfg.twapEnabled && i.position.Some?
    requires Evaluate(cfg, s, i).report.plan.Some? && Evaluate(cfg, s, WithSpot(i, spot)).report.plan.Some?
    requires Seen(cfg, i) == Seen(cfg, WithSpot(i, spot))
    ensures Evaluate(cfg, s, i).report.plan.value.base == Evaluate(cfg, s, WithSpot(i, spot)).report.plan.value.base
  {
    EveryPlanIsWellFounded(cfg, s, i);
    EveryPlanIsWellFounded(cfg, s, WithSpot(i, spot));
    SameAim(cfg, s, i, spot);
  }

  lemma SameAim(cfg: Config, s: KeeperState, i: Inputs, spot: int)
    requires cfg.spacing > 0 && cfg.twapEnabled && i.position.Some? && i.twapTick.Some?
    ensures MultUnder(cfg, s, i) == MultUnder(cfg, s, WithSpot(i, spot))
    ensures PlacementTick(cfg, i, i.position.value.spot) == PlacementTick(cfg, WithSpot(i, spot), spot)
  {
  }

  /** The midpoint of the band an evaluation aims at. */
  function AimMid(cfg: Config, s: KeeperState, i: Inputs, spot: int): int
    requires cfg.spacing > 0
  {
    BandMid(CenteredBand(PlacementTick(cfg, i, spot), MultUnder(cfg, s, i), cfg.spacing))
  }

  /** Near spot and near the feed, up to the rounding of a placement. */
  predicate NearTruth(cfg: Config, i: Inputs, spot: int, mid: int)
  {
    var slack := (cfg.spacing - 1) / 2;
    && (cfg.twapEnabled ==> Abs(mid - spot) <= cfg.maxDevTicks + slack)
    && (cfg.oracleEnabled ==> i.oracle.Some? && Abs(mid - i.oracle.value.tick) <= cfg.oracleMaxDevTicks + slack)
  }

  /** From one midpoint toward `aim`, never past it, and never back by more than the slack. */
  predicate Approaches(from: int, mid: int, aim: int, slack: int)
  {
    && (from <= aim ==> from - slack <= mid <= aim)
    && (from >= aim ==> aim <= mid <= from + slack)
  }

  lemma ClampApproaches(target: Band, current: Band, cap: int, mult: int, spacing: int)
    requires spacing > 0 && mult >= 0 && cap >= 0
    ensures var r := ClampBandTranslation(target, current, cap, mult, spacing);
      r.Clamp? ==> Approaches(BandMid(current), BandMid(r.band), BandMid(target), (spacing - 1) / 2)
  {
    var c, step := BandMid(current), cap - 2 * spacing;
    ClampRespectsCap(target, current, cap, mult, spacing);
    if step > 0 && Abs(BandMid(target) - c) > cap { WalkedNear(target, current, cap, mult, spacing); }
  }

  lemma WalkedNear(target: Band, current: Band, cap: int, mult: int, spacing: int)
    requires spacing > 0 && mult >= 0 && cap > 2 * spacing && Abs(BandMid(target) - BandMid(current)) > cap
    ensures var c, step := BandMid(current), cap - 2 * spacing;
      var mid := BandMid(ClampBandTranslation(target, current, cap, mult, spacing).band);
      Abs(mid - (c + (if BandMid(target) > c then step else -step))) <= (spacing - 1) / 2
  {
    var c, step := BandMid(current), cap - 2 * spacing;
    WalkedMid(target, current, cap, mult, spacing);
    CenteredBandShape(c + (if BandMid(target) > c then step else -step), mult, spacing);
  }

  lemma AimIsNearTruth(cfg: Config, s: KeeperState, i: Inputs, spot: int)
    requires WellFormed(cfg) && Trusted(cfg, i, spot)
    ensures NearTruth(cfg, i, spot, AimMid(cfg, s, i, spot))
  {
    CenteredBandShape(PlacementTick(cfg, i, spot), MultUnder(cfg, s, i), cfg.spacing);
  }

  lemma PlacedApproaches(cfg: Config, s: KeeperState, i: Inputs, p: Position, base: Band)
    requires WellFormed(cfg) && PlacedAt(cfg, i, p, Recenter, MultUnder(cfg, s, i), base)
    requires cfg.proxied && i.caps.Some? ==> i.caps.value.maxTranslation >= 0
    ensures Approaches(BandMid(p.base), BandMid(base), AimMid(cfg, s, i, p.spot), (cfg.spacing - 1) / 2)
  {
    var target := CenteredBand(PlacementTick(cfg, i, p.spot), MultUnder(cfg, s, i), cfg.spacing);
    if cfg.proxied && i.caps.Some? {
      ClampApproaches(target, p.base, i.caps.value.maxTranslation, MultUnder(cfg, s, i), cfg.spacing);
    }
  }

  /** A re-centered band is aimed near the truth and lands on the way there: whatever was done to the spot
      price, the two deviation caps and half a spacing of rounding bound where it can end up. */
  lemma RecenterHeadsForTruth(cfg: Config, s: KeeperState, i: Inputs)
    requires WellFormed(cfg)
    requires cfg.proxied && i.caps.Some? ==> i.caps.value.maxTranslation >= 0
    requires Evaluate(cfg, s, i).report.plan.Some? && Seen(cfg, i) == Some(Recenter)
    ensures var p := i.position.value; var aim := AimMid(cfg, s, i, p.spot);
      && NearTruth(cfg, i, p.spot, aim)
      && Approaches(BandMid(p.base), BandMid(Evaluate(cfg, s, i).report.plan.value.base), aim, (cfg.spacing - 1) / 2)
  {
    EveryPlanIsWellFounded(cfg, s, i);
    AimIsNearTruth(cfg, s, i, i.position.value.spot);
    PlacedApproaches(cfg, s, i, i.position.value, Evaluate(cfg, s, i).report.plan.value.base);
  }

  // --- sweeps over a run -------------------------------------------------------------------------

  /** The sweeps of a run since the last restart, by the time they were stamped with. */
  function Sweeps(cfg: Config, bootTs: int, h: seq<Event>): seq<int>
    requires cfg.spacing > 0
  {
    if h == [] then []
    else
      var before := h[..|h| - 1];
      match h[|h| - 1]
      case Restart(_) => []
      case Block(i) =>
        if KeeperRuns.Run(cfg, bootTs, h).lastCompoundTs != KeeperRuns.Run(cfg, bootTs, before).lastCompoundTs
        then Sweeps(cfg, bootTs, before) + [KeeperRuns.Run(cfg, bootTs, h).lastCompoundTs]
        else Sweeps(cfg, bootTs, before)
  }

  /** Between restarts, sweeps are at least the interval apart, and the clock the keeper carries is the
      last of them. */
  lemma {:induction false} SweepsArePaced(cfg: Config, bootTs: int, h: seq<Event>)
    requires cfg.spacing > 0
    ensures var sweeps := Sweeps(cfg, bootTs, h);
      && KeeperRuns.Run(cfg, bootTs, h).lastCompoundTs == (if sweeps == [] then 0 else sweeps[|sweeps| - 1])
      && forall k :: 0 < k < |sweeps| ==> sweeps[k] - sweeps[k - 1] >= cfg.compoundIntervalSecs
  {
    if h != [] && h[|h| - 1].Block? {
      var before := h[..|h| - 1];
      SweepsArePaced(cfg, bootTs, before);
      EveryPlanIsWellFounded(cfg, KeeperRuns.Run(cfg, bootTs, before), h[|h| - 1].i);
    }
  }
}
