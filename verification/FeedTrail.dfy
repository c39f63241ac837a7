/** The feed prices a running keeper has taken in, and what they keep it from: no plan is made after a move
    over the hour at the extreme threshold, nor on a reserve not read to be live. */
module FeedTrail {
  import opened Wrappers
  import opened Ticks
  import opened Regime
  import opened Keeper
  import opened KeeperRuns
  import opened PriceSafety
  import opened PriceTrail

  /** The feed price an evaluation takes in: it does so once its gates have run, with the regime on. */
  function FedAt(cfg: Config, s: KeeperState, i: Inputs): Option<Sample>
    requires cfg.spacing > 0
  {
    if !cfg.regimeEnabled || !Evaluate(cfg, s, i).report.gated || i.position.None? then None
    else if CheckPrice(cfg, i, i.position.value.spot).oraclePrice.None? then None
    else Some(Sample(i.now, CheckPrice(cfg, i, i.position.value.spot).oraclePrice.value))
  }

  function Fed(prices: seq<Sample>, sample: Option<Sample>): seq<Sample>
  {
    if sample.None? then prices else Window(Append(prices, sample.value), 2 * 60 * 60)
  }

  /** Everything a process has taken in since it started. */
  function Feeds(cfg: Config, bootTs: int, h: seq<Event>): seq<Sample>
    requires cfg.spacing > 0
  {
    if h == [] then []
    else
      match h[|h| - 1]
      case Restart(_) => []
      case Block(i) =>
        var before := h[..|h| - 1];
        var sample := FedAt(cfg, KeeperRuns.Run(cfg, bootTs, before), i);
        Feeds(cfg, bootTs, before) + if sample.Some? then [sample.value] else []
  }

  lemma SweepStageKeepsPrices(cfg: Config, s: KeeperState, i: Inputs, p: Position, w: Winner, caps: Option<ProxyCaps>,
                              armed: bool, due: bool, gate: Gate, regime: Regime, mult: int, said: seq<Line>)
    requires cfg.spacing > 0
    ensures var step := AfterRegime(cfg, s, i, p, w, caps, armed, due, gate, regime, mult, said);
      step.state.prices == s.prices && step.report.gated
  {
  }

  lemma GatesFeed(cfg: Config, s: KeeperState, i: Inputs, p: Position, w: Winner, caps: Option<ProxyCaps>,
                  armed: bool, due: bool, said: seq<Line>)
    requires cfg.spacing > 0
    ensures var step := AfterCooldown(cfg, s, i, p, w, caps, armed, due, said);
      var price := CheckPrice(cfg, i, p.spot).oraclePrice;
      && step.report.gated
      && step.state.prices
         == Fed(s.prices, if cfg.regimeEnabled && price.Some? then Some(Sample(i.now, price.value)) else None)
  {
    var gate := CheckPrice(cfg, i, p.spot);
    if cfg.regimeEnabled {
      var r := EvaluateRegime(cfg, s, i, gate);
      SweepStageKeepsPrices(cfg, r.state, i, p, w, caps, armed, due, gate, r.decision.regime,
        BandMultForRegime(r.decision.regime, cfg.baseHalfWidthMult, cfg.elevatedHalfWidthMult),
        said + gate.lines + r.lines);
    } else {
      SweepStageKeepsPrices(cfg, s, i, p, w, caps, armed, due, gate, Calm, cfg.baseHalfWidthMult, said + gate.lines);
    }
  }

  lemma DwellFeeds(cfg: Config, s: KeeperState, i: Inputs, p: Position, w: Winner, due: bool, said: seq<Line>)
    requires cfg.spacing > 0
    ensures var step := AfterDwell(cfg, s, i, p, w, due, said);
      var price := CheckPrice(cfg, i, p.spot).oraclePrice;
      step.state.prices == Fed(s.prices,
        if cfg.regimeEnabled && step.report.gated && price.Some? then Some(Sample(i.now, price.value)) else None)
  {
    var r := StepCooldown(cfg, s, i, w, said);
    if r.Ready? && (r.armed || due) { GatesFeed(cfg, s, i, p, w, r.caps, r.armed, due, r.lines); }
  }

  /** An evaluation's trail is the old one with what it took in, pruned to two hours. */
  lemma EvaluationFeeds(cfg: Config, s: KeeperState, i: Inputs)
    requires cfg.spacing > 0
    ensures Evaluate(cfg, s, i).state.prices == Fed(s.prices, FedAt(cfg, s, i))
  {
    if Seen(cfg, i).Some? {
      var p := i.position.value;
      var d := Triggers(cfg, p);
      var due := CompoundDue(cfg, s, i.now);
      var s1 := StepDwells(s, d.winner, i.now);
      DwellFeeds(cfg, s1, i, p, d.winner, due,
        [Summary(p.spot, p.base, d.winner, due, d.reason)] + ArmingLines(cfg, s1, d.winner, i.now));
    }
  }

  /** Over every run the trail is the pruned history of what the process took in. */
  lemma {:induction false} TrailIsTheFeed(cfg: Config, bootTs: int, h: seq<Event>)
    requires cfg.spacing > 0
    ensures KeeperRuns.Run(cfg, bootTs, h).prices == Pruned(Feeds(cfg, bootTs, h), 2 * 60 * 60)
  {
    if h != [] && h[|h| - 1].Block? {
      var before, i := h[..|h| - 1], h[|h| - 1].i;
      var s := KeeperRuns.Run(cfg, bootTs, before);
      TrailIsTheFeed(cfg, bootTs, before);
      EvaluationFeeds(cfg, s, i);
      PrunedOneMore(Feeds(cfg, bootTs, before), FedAt(cfg, s, i));
    }
  }

  lemma PrunedOneMore(feeds: seq<Sample>, sample: Option<Sample>)
    ensures Pruned(feeds + (if sample.Some? then [sample.value] else []), 2 * 60 * 60)
         == Fed(Pruned(feeds, 2 * 60 * 60), sample)
  {
    if sample.Some? {
      assert (feeds + [sample.value])[..|feeds|] == feeds;
    } else {
      assert feeds + [] == feeds;
    }
  }

  // --- what a plan says about it --------------------------------------------------------------

  /** The readings a plan was made on, as far as they can stop one. */
  predicate CalmEnough(cfg: Config, i: Inputs, prices: seq<Sample>)
  {
    && (cfg.pauseCheckEnabled ==> i.reservePaused == Some(false))
    && var move := RelativeMove(prices, 60 * 60, i.now);
       move.Some? ==> move.value < cfg.thresholds.move1hExtreme
  }

  /** With the regime on, no plan is made in a market its own readings call extreme, and what was fed is what
      the trail holds afterwards. */
  lemma PlanIsCalmEnough(cfg: Config, s: KeeperState, i: Inputs)
    requires cfg.spacing > 0 && cfg.regimeEnabled && Evaluate(cfg, s, i).report.plan.Some?
    ensures CalmEnough(cfg, i, Evaluate(cfg, s, i).state.prices)
  {
    EveryPlanIsWellFounded(cfg, s, i);
    EvaluationFeeds(cfg, s, i);
    GateOpensExactly(cfg, i, i.position.value.spot);
    PlannedIsGated(cfg, s, i);
    RegimeUnderIsCalmEnough(cfg, s, i);
  }

  lemma PlannedIsGated(cfg: Config, s: KeeperState, i: Inputs)
    requires cfg.spacing > 0 && Evaluate(cfg, s, i).report.plan.Some?
    ensures Evaluate(cfg, s, i).report.gated && i.position.Some?
  {
    if Seen(cfg, i).Some? {
      var p := i.position.value;
      var d := Triggers(cfg, p);
      var due := CompoundDue(cfg, s, i.now);
      var s1 := StepDwells(s, d.winner, i.now);
      var said := [Summary(p.spot, p.base, d.winner, due, d.reason)] + ArmingLines(cfg, s1, d.winner, i.now);
      var r := StepCooldown(cfg, s1, i, d.winner, said);
      if r.Ready? && (r.armed || due) { GatesFeed(cfg, s1, i, p, d.winner, r.caps, r.armed, due, r.lines); }
    }
  }

  lemma RegimeUnderIsCalmEnough(cfg: Config, s: KeeperState, i: Inputs)
    requires cfg.regimeEnabled && RegimeUnder(cfg, s, i) != Extreme
    ensures var price := if cfg.oracleEnabled && i.oracle.Some? then Some(i.oracle.value.price) else None;
      CalmEnough(cfg, i, Fed(s.prices, if price.Some? then Some(Sample(i.now, price.value)) else None))
  {
  }

  /** Below the extreme threshold, by the price the full history has for an hour ago, if that is no more than
      two hours older than the newest. */
  predicate NoCrash(cfg: Config, feeds: seq<Sample>, now: int)
  {
    var log := FullLog(feeds);
    var ref := Reference(log, now - 60 * 60);
    log != [] && ref.Some? && ref.value.ts >= log[|log| - 1].ts - 2 * 60 * 60 ==>
      RelativeMove(log, 60 * 60, now).Some? && RelativeMove(log, 60 * 60, now).value < cfg.thresholds.move1hExtreme
  }

  lemma TrailTellsTheLog(cfg: Config, i: Inputs, feeds: seq<Sample>)
    requires CalmEnough(cfg, i, Pruned(feeds, 2 * 60 * 60))
    ensures NoCrash(cfg, feeds, i.now)
  {
    MoveOverRefinesFullLog(feeds, 2 * 60 * 60, 60 * 60, i.now);
  }

  /** Over every run, with nothing said of the machine's own trail: at a plan, the move over the hour in the
      full history of feed prices is below the extreme threshold, unless there is none to tell, or the price
      of an hour ago is more than two hours older than the newest. */
  lemma NoPlanInACrash(cfg: Config, bootTs: int, h: seq<Event>, i: Inputs)
    requires cfg.spacing > 0 && cfg.regimeEnabled
    requires Evaluate(cfg, KeeperRuns.Run(cfg, bootTs, h), i).report.plan.Some?
    ensures cfg.pauseCheckEnabled ==> i.reservePaused == Some(false)
    ensures NoCrash(cfg, Feeds(cfg, bootTs, h + [Block(i)]), i.now)
  {
    var s := KeeperRuns.Run(cfg, bootTs, h);
    assert (h + [Block(i)])[..|h|] == h;
    PlanIsCalmEnough(cfg, s, i);
    TrailIsTheFeed(cfg, bootTs, h + [Block(i)]);
    assert KeeperRuns.Run(cfg, bootTs, h + [Block(i)]) == Evaluate(cfg, s, i).state;
    TrailTellsTheLog(cfg, i, Feeds(cfg, bootTs, h + [Block(i)]));
  }
}
