/** The keeper as the source writes it: one object per vault, its fields updated in place while an
    evaluation runs, three armed flags and early returns. The printed lines are collected in order. */
module KeeperProcess {
  import opened Wrappers
  import opened Ticks
  import opened Decide
  import opened Regime
  import opened Keeper
  import PriceTrail

  class VaultKeeper {
    const cfg: Config
    const prices: PriceTrail.PriceHistory
    var lastRebalanceTs: int
    var dwellSince: int
    var refreshDwellSince: int
    var foldDwellSince: int
    var regime: RegimeState
    var volFetchedAt: Option<int>
    var lastCompoundTs: int

    ghost predicate Valid()
      reads this, prices
    {
      cfg.spacing > 0 && prices.Valid() && prices.windowSecs == PRICE_WINDOW_SECS
    }

    function State(): KeeperState
      reads this, prices
    {
      KeeperState(lastRebalanceTs, dwellSince, refreshDwellSince, foldDwellSince,
                  regime, prices.samples, volFetchedAt, lastCompoundTs)
    }

    constructor (cfg: Config, recoveredTs: int)
      requires cfg.spacing > 0
      ensures Valid() && fresh(prices)
      ensures this.cfg == cfg && State() == InitialState(recoveredTs)
    {
      this.cfg := cfg;
      this.prices := new PriceTrail.PriceHistory(PRICE_WINDOW_SECS);
      lastRebalanceTs, lastCompoundTs := recoveredTs, 0;
      dwellSince, refreshDwellSince, foldDwellSince := 0, 0, 0;
      regime, volFetchedAt := BLANK, None;
    }

    /** The dwell gate of one trigger: restart the clock when the trigger is absent, start it when it
        first holds, and let the trigger through once it has held long enough. */
    method StepDwell(leg: Winner, trigger: bool, now: int) returns (armed: bool, lines: seq<Line>)
      requires leg != Hold
      modifies this`dwellSince, this`refreshDwellSince, this`foldDwellSince
      ensures Clock(State(), leg) == StepClock(old(Clock(State(), leg)), trigger, now)
      ensures forall other: Winner :: other != leg ==> Clock(State(), other) == old(Clock(State(), other))
      ensures armed <==> trigger && now - Clock(State(), leg) >= cfg.dwellSecs
      ensures lines == if trigger && !armed then [Arming(leg, now - Clock(State(), leg), cfg.dwellSecs)] else []
    {
      var since := Clock(State(), leg);
      if !trigger {
        since := 0;
      } else if since == 0 {
        since := now;
      }
      match leg {
        case Recenter => dwellSince := since;
        case Refresh => refreshDwellSince := since;
        case Fold => foldDwellSince := since;
      }
      armed := trigger && now - since >= cfg.dwellSecs;
      lines := if trigger && !armed then [Arming(leg, now - since, cfg.dwellSecs)] else [];
    }

    method RecordPrice(feed: Option<real>, now: int) returns (move15m: Option<real>, move1h: Option<real>)
      requires Valid()
      modifies prices
      ensures Valid()
      ensures prices.samples == Trail(old(prices.samples), feed, now)
      ensures move15m == PriceTrail.RelativeMove(prices.samples, 15 * 60, now)
      ensures move1h == PriceTrail.RelativeMove(prices.samples, 60 * 60, now)
    {
      if feed.Some? { prices.Push(now, feed.value); }
      move15m := prices.MoveOver(15 * 60, now);
      move1h := prices.MoveOver(60 * 60, now);
    }

    method StepRegime(i: Inputs, gate: Gate) returns (d: RegimeDecision, lines: seq<Line>)
      requires Valid()
      modifies this`regime, this`volFetchedAt, prices
      ensures Valid()
      ensures var r := EvaluateRegime(cfg, old(State()), i, gate);
        State() == r.state && d == r.decision && lines == r.lines
    {
      lines := [];
      var move15m, move1h := RecordPrice(gate.oraclePrice, i.now);
      var stale := volFetchedAt.None? || i.now - volFetchedAt.value >= cfg.volRefreshSecs;
      var ratio: Option<real> := None;
      if cfg.indexerEnabled && stale {
        match i.vol {
          case Ratio(x) =>
            volFetchedAt, ratio := Some(i.now), Some(x);
            lines := [VolLine];
          case Missed(logged) =>
            if logged { lines := [Noise]; }
        }
      }
      d := NextRegime(
        RegimeInput(ratio, move15m, move1h, gate.feedHealthy,
                    if cfg.pauseCheckEnabled then i.reservePaused else Some(false)),
        cfg.thresholds, regime, i.now);
      regime := d.state;
      lines := lines + (if d.changed then [RegimeChanged(d.regime)] else [])
                     + (if d.regime == Elevated then [RegimeElevated] else []);
    }

    /** From the trigger reads to the cooldown. */
    method Evaluate(i: Inputs) returns (report: Report)
      requires Valid()
      modifies this, prices
      ensures Valid()
      ensures Step(State(), report) == Keeper.Evaluate(cfg, old(State()), i)
    {
      if i.position.None? { return Report(ExitError, [Failure], None, false, None); }
      var p := i.position.value;
      var decision := Triggers(cfg, p);
      if decision.ReadThrew? { return Report(ExitError, [Failure], None, false, None); }
      report := Dwell(i, p, decision.winner, decision.reason);
    }

    /** The three dwell clocks, of which at most one runs. */
    method Dwell(i: Inputs, p: Position, w: Winner, reason: Reason) returns (report: Report)
      requires Valid()
      modifies this, prices
      ensures Valid()
      ensures Step(State(), report) == AfterTriggers(cfg, old(State()), i, p, w, reason)
    {
      var due := cfg.compoundEnabled && i.now - lastCompoundTs >= cfg.compoundIntervalSecs;
      var lines := [Summary(p.spot, p.base, w, due, reason)];
      var rebalanceArmed, said1 := StepDwell(Recenter, w == Recenter, i.now);
      var refreshArmed, said2 := StepDwell(Refresh, w == Refresh, i.now);
      var foldArmed, said3 := StepDwell(Fold, w == Fold, i.now);
      assert State() == StepDwells(old(State()), w, i.now) by {
        assert Clock(State(), Recenter) == StepClock(old(dwellSince), w == Recenter, i.now);
        assert Clock(State(), Refresh) == StepClock(old(refreshDwellSince), w == Refresh, i.now);
        assert Clock(State(), Fold) == StepClock(old(foldDwellSince), w == Fold, i.now);
      }
      assert said1 + said2 + said3 == ArmingLines(cfg, State(), w, i.now);
      report := Proceed(i, p, w, rebalanceArmed, refreshArmed, foldArmed, due, lines + (said1 + said2 + said3));
    }

    /** Cooldown: holds back an armed trigger, never a due sweep. */
    method Proceed(i: Inputs, p: Position, w: Winner, rebalance: bool, refresh: bool, fold: bool, due: bool,
                   before: seq<Line>)
      returns (report: Report)
      requires Valid()
      requires rebalance <==> w == Recenter && DwellMet(cfg, State(), w, i.now)
      requires refresh <==> w == Refresh && DwellMet(cfg, State(), w, i.now)
      requires fold <==> w == Fold && DwellMet(cfg, State(), w, i.now)
      modifies this, prices
      ensures Valid()
      ensures Step(State(), report) == AfterDwell(cfg, old(State()), i, p, w, due, before)
    {
      var lines := before;
      var rebalanceArmed, refreshArmed, foldArmed := rebalance, refresh, fold;
      var cooled := false;
      var caps: Option<ProxyCaps> := None;
      if rebalanceArmed || refreshArmed || foldArmed {
        if cfg.proxied {
          if i.caps.None? { return Report(ExitError, lines + [Failure], None, false, None); }
          caps := i.caps;
        }
        var minInterval := MinIntervalSecs(cfg, caps);
        var lastTs := Max(lastRebalanceTs, if caps.Some? then caps.value.lastRebalanceTs else 0);
        if lastTs > 0 && i.now - lastTs < minInterval {
          lines := lines + [MinInterval(i.now - lastTs, minInterval)];
          rebalanceArmed, refreshArmed, foldArmed := false, false, false;
          cooled := true;
        }
      }
      if !rebalanceArmed && !refreshArmed && !foldArmed && !due {
        var exit := if cooled then ExitCooldown else if w == Hold then ExitHold else ExitArming;
        return Report(exit, lines, None, false, None);
      }
      report := Gated(i, p, w, caps, rebalanceArmed || refreshArmed || foldArmed, due, lines);
    }

    /** Price gates, regime and sweep. */
    method Gated(i: Inputs, p: Position, w: Winner, caps: Option<ProxyCaps>, armed: bool, due: bool, before: seq<Line>)
      returns (report: Report)
      requires Valid()
      modifies this, prices
      ensures Valid()
      ensures Step(State(), report) == AfterCooldown(cfg, old(State()), i, p, w, caps, armed, due, before)
    {
      var gate := CheckPrice(cfg, i, p.spot);
      var lines := before + gate.lines;
      var bandMult := cfg.baseHalfWidthMult;
      var current := Calm;
      if cfg.regimeEnabled {
        var d, said := StepRegime(i, gate);
        current := d.regime;
        bandMult := BandMultForRegime(current, cfg.baseHalfWidthMult, cfg.elevatedHalfWidthMult);
        lines := lines + said;
      } else if !gate.feedHealthy {
        return Report(ExitNoRegimeFeed, lines + [NoRegimeFeed], None, true, None);
      }
      report := SweepThenAct(i, p, w, caps, armed, due, gate, current, bandMult, lines);
    }

    method SweepThenAct(i: Inputs, p: Position, w: Winner, caps: Option<ProxyCaps>, armed: bool, due: bool,
                        gate: Gate, current: Regime, bandMult: int, before: seq<Line>)
      returns (report: Report)
      requires cfg.spacing > 0
      modifies this`lastRebalanceTs, this`dwellSince, this`refreshDwellSince, this`foldDwellSince, this`lastCompoundTs
      ensures Step(State(), report)
           == AfterRegime(cfg, old(State()), i, p, w, caps, armed, due, gate, current, bandMult, before)
    {
      var lines, threw := Sweep(i, due, gate, current, before);
      if threw { return Report(ExitError, lines + [Failure], None, true, None); }
      report := ActOrDecline(i, p, w, caps, armed, gate, current, bandMult, lines);
    }

    method Sweep(i: Inputs, due: bool, gate: Gate, current: Regime, before: seq<Line>)
      returns (lines: seq<Line>, threw: bool)
      modifies this`lastCompoundTs
      ensures SweepStep(State(), lines, threw) == StepSweep(old(State()), i, due, gate, current, before)
    {
      lines, threw := before, false;
      if due {
        var refusal := CompoundRefusal(gate, current);
        if refusal.Some? {
          lines := lines + [CompoundSkipped(refusal.value)];
        } else {
          lastCompoundTs := i.now;
          lines := lines + SweepLines(i.sweep);
          threw := SweepThrows(i.sweep);
        }
      }
    }

    method ActOrDecline(i: Inputs, p: Position, w: Winner, caps: Option<ProxyCaps>, armed: bool,
                  gate: Gate, current: Regime, bandMult: int, lines: seq<Line>)
      returns (report: Report)
      requires cfg.spacing > 0
      modifies this`lastRebalanceTs, this`dwellSince, this`refreshDwellSince, this`foldDwellSince
      ensures Step(State(), report)
           == AfterSweep(cfg, old(State()), i, p, w, caps, armed, gate, current, bandMult, lines)
    {
      if !armed { return Report(ExitCompoundOnly, lines, None, true, None); }
      if current == Extreme { return Report(ExitRegimeExtreme, lines + [SkipExtreme, Noise], None, true, None); }
      if gate.failed.Some? { return Report(ExitGateBlocked, lines + [SkipGate(gate.failed.value)], None, true, None); }
      var placementTick := if gate.twapTick.Some? then gate.twapTick.value else p.spot;
      if i.belowGasFloor.None? { return Report(ExitError, lines + [Failure], None, true, None); }
      if i.belowGasFloor.value { return Report(ExitGasFloor, lines + [SkipGas], None, true, None); }
      report := Act(i, p, w, caps, placementTick, bandMult, lines);
    }

    /** The base band to place: the clamp may refuse, walk, or hand back a band of the wrong width. */
    method Aim(p: Position, w: Winner, caps: Option<ProxyCaps>, tick: int, mult: int) returns (aim: BasePlan)
      requires cfg.spacing > 0
      ensures aim == PlanBase(cfg, w, p.base, caps, tick, mult)
      ensures w != Recenter ==> aim == BaseAt(p.base, false)
      ensures w == Recenter && mult >= 0 && caps.Some? && !caps.value.exempted && aim.BaseAt? ==>
        && Abs(BandMid(aim.band) - BandMid(p.base)) <= caps.value.maxTranslation
        && Abs((aim.band.upper - aim.band.lower) - (p.base.upper - p.base.lower)) <= caps.value.maxWidth
      ensures aim.Unworkable? <==>
        && w == Recenter && caps.Some? && !caps.value.exempted
        && caps.value.maxTranslation <= 2 * cfg.spacing
        && Abs(BandMid(CenteredBand(tick, mult, cfg.spacing)) - BandMid(p.base)) > caps.value.maxTranslation
    {
      if w != Recenter { return BaseAt(p.base, false); }
      var newBase := CenteredBand(tick, mult, cfg.spacing);
      if caps.None? || caps.value.exempted { return BaseAt(newBase, false); }
      var c := ClampBandTranslation(newBase, p.base, caps.value.maxTranslation, mult, cfg.spacing);
      ClampRefusalExact(newBase, p.base, caps.value.maxTranslation, mult, cfg.spacing);
      if mult >= 0 { ClampRespectsCap(newBase, p.base, caps.value.maxTranslation, mult, cfg.spacing); }
      if c.CapNotWorkable? { return Unworkable; }
      var widthDelta := Abs((c.band.upper - c.band.lower) - (p.base.upper - p.base.lower));
      return if widthDelta > caps.value.maxWidth then TooWide(c.clamped) else BaseAt(c.band, c.clamped);
    }

    /** Plan, preflight, submit, and the writes after a confirmed landing. */
    method Act(i: Inputs, p: Position, w: Winner, caps: Option<ProxyCaps>, tick: int, mult: int, before: seq<Line>)
      returns (report: Report)
      requires cfg.spacing > 0
      modifies this`lastRebalanceTs, this`dwellSince, this`refreshDwellSince, this`foldDwellSince
      ensures Step(State(), report) == Place(cfg, old(State()), i, p, w, caps, tick, mult, before)
    {
      var lines := before;
      var aim := Aim(p, w, caps, tick, mult);
      if aim.Unworkable? { return Report(ExitClampUnworkable, lines + [SkipTranslation], None, true, None); }
      if aim.clamped { lines := lines + [ClampWalk]; }
      if aim.TooWide? { return Report(ExitWidthCap, lines + [SkipWidth], None, true, None); }
      if !i.amountsReadable { return Report(ExitError, lines + [Failure], None, true, None); }
      var limit := LimitRange(p.spot, cfg.spacing, i.side, cfg.limitWidthMult);
      var plan := Plan(w, aim.band, limit, i.side);
      lines := lines + [PlanLine(plan)];
      if cfg.dryRun { return Report(ExitDryRun, lines + [DryRunLine], Some(plan), true, None); }
      if !i.preflightOk { return Report(ExitPreflightRevert, lines + [PreflightRevertLine], Some(plan), true, None); }
      report := Send(i, plan, lines + [Submitting]);
    }

    /** The submission, and the writes after a confirmed landing. */
    method Send(i: Inputs, plan: Plan, lines: seq<Line>) returns (report: Report)
      modifies this`lastRebalanceTs, this`dwellSince, this`refreshDwellSince, this`foldDwellSince
      ensures Step(State(), report) == Submit(old(State()), i, plan, lines)
    {
      match i.submission {
        case NotMined => return Report(ExitError, lines + [Failure], Some(plan), true, None);
        case MinedUnseen(ts) => return Report(ExitError, lines + [Failure], Some(plan), true, Some(ts));
        case Confirmed(ts) =>
          lastRebalanceTs := i.now;
          dwellSince, refreshDwellSince, foldDwellSince := 0, 0, 0;
          return Report(ExitLanded, lines + [LandedLine(plan.kind)], Some(plan), true, Some(ts));
      }
    }
  }
}
