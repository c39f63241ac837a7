/** How far and how fast the band can move in proxy mode, over every run, restarts included. */
module BoundedMotion {
  import opened Wrappers
  import opened Ticks
  import opened Regime
  import opened Keeper
  import opened KeeperRuns
  import opened PriceSafety
  import opened RebalanceProxy

  // --- one evaluation -------------------------------------------------------------------

  /** A plan keeps the base, or moves it inside the caps. */
  predicate PlanFits(base: Band, caps: Option<ProxyCaps>, report: Report)
  {
    report.plan.Some? ==>
      var next := report.plan.value.base;
      && (report.plan.value.kind != Recenter ==> next == base)
      && (report.plan.value.kind == Recenter && caps.Some? && !caps.value.exempted ==>
            && Abs(BandMid(next) - BandMid(base)) <= caps.value.maxTranslation
            && Abs((next.upper - next.lower) - (base.upper - base.lower)) <= caps.value.maxWidth)
  }

  predicate MinedNeedsPlan(i: Inputs, report: Report)
  {
    report.mined.Some? ==>
      && report.plan.Some?
      && (i.submission == Confirmed(report.mined.value) || i.submission == MinedUnseen(report.mined.value))
  }

  lemma PlaceFits(cfg: Config, s: KeeperState, i: Inputs, p: Position, w: Winner, caps: Option<ProxyCaps>,
                  tick: int, mult: int, said: seq<Line>)
    requires cfg.spacing > 0 && mult >= 0
    ensures var r := Place(cfg, s, i, p, w, caps, tick, mult, said).report;
      PlanFits(p.base, caps, r) && MinedNeedsPlan(i, r)
  {
    if caps.Some? {
      ClampRespectsCap(CenteredBand(tick, mult, cfg.spacing), p.base, caps.value.maxTranslation, mult, cfg.spacing);
    }
  }

  lemma DeclineFits(cfg: Config, s: KeeperState, i: Inputs, p: Position, w: Winner, caps: Option<ProxyCaps>,
                    armed: bool, gate: Gate, regime: Regime, mult: int, said: seq<Line>)
    requires cfg.spacing > 0 && mult >= 0
    ensures var r := AfterSweep(cfg, s, i, p, w, caps, armed, gate, regime, mult, said).report;
      PlanFits(p.base, caps, r) && MinedNeedsPlan(i, r) && (r.plan.Some? ==> armed)
  {
    PlaceFits(cfg, s, i, p, w, caps, if gate.twapTick.Some? then gate.twapTick.value else p.spot, mult, said);
  }

  lemma SweepFits(cfg: Config, s: KeeperState, i: Inputs, p: Position, w: Winner, caps: Option<ProxyCaps>,
                  armed: bool, due: bool, gate: Gate, regime: Regime, mult: int, said: seq<Line>)
    requires cfg.spacing > 0 && mult >= 0
    ensures var r := AfterRegime(cfg, s, i, p, w, caps, armed, due, gate, regime, mult, said).report;
      PlanFits(p.base, caps, r) && MinedNeedsPlan(i, r) && (r.plan.Some? ==> armed)
  {
    var r := StepSweep(s, i, due, gate, regime, said);
    DeclineFits(cfg, r.state, i, p, w, caps, armed, gate, regime, mult, r.lines);
  }

  lemma GatesFit(cfg: Config, s: KeeperState, i: Inputs, p: Position, w: Winner, caps: Option<ProxyCaps>,
                 armed: bool, due: bool, said: seq<Line>)
    requires WellFormed(cfg)
    ensures var r := AfterCooldown(cfg, s, i, p, w, caps, armed, due, said).report;
      PlanFits(p.base, caps, r) && MinedNeedsPlan(i, r) && (r.plan.Some? ==> armed)
  {
    var gate := CheckPrice(cfg, i, p.spot);
    if cfg.regimeEnabled {
      var r := EvaluateRegime(cfg, s, i, gate);
      SweepFits(cfg, r.state, i, p, w, caps, armed, due, gate, r.decision.regime,
        BandMultForRegime(r.decision.regime, cfg.baseHalfWidthMult, cfg.elevatedHalfWidthMult),
        said + gate.lines + r.lines);
    } else {
      SweepFits(cfg, s, i, p, w, caps, armed, due, gate, Calm, cfg.baseHalfWidthMult, said + gate.lines);
    }
  }

  /** A plan only comes out of an evaluation that read its caps, is past the cooldown and, when
      re-centering, inside the caps. */
  lemma DwellFits(cfg: Config, s: KeeperState, i: Inputs, p: Position, w: Winner, due: bool, said: seq<Line>)
    requires WellFormed(cfg)
    ensures var r := AfterDwell(cfg, s, i, p, w, due, said).report;
      var caps := if cfg.proxied then i.caps else None;
      && PlanFits(p.base, caps, r) && MinedNeedsPlan(i, r)
      && (r.plan.Some? ==> !CoolingDown(cfg, s, caps, i.now) && (cfg.proxied ==> i.caps.Some?))
  {
    var r := StepCooldown(cfg, s, i, w, said);
    if r.Ready? { GatesFit(cfg, s, i, p, w, r.caps, r.armed, due, r.lines); }
  }

  lemma EvaluationFits(cfg: Config, s: KeeperState, i: Inputs)
    requires WellFormed(cfg)
    ensures var r := Evaluate(cfg, s, i).report;
      var caps := if cfg.proxied then i.caps else None;
      && MinedNeedsPlan(i, r)
      && (r.plan.Some? ==>
            && i.position.Some?
            && PlanFits(i.position.value.base, caps, r)
            && !CoolingDown(cfg, s, caps, i.now)
            && (cfg.proxied ==> i.caps.Some?))
  {
    if Seen(cfg, i).Some? {
      var p := i.position.value;
      var d := Triggers(cfg, p);
      var due := CompoundDue(cfg, s, i.now);
      var s1 := StepDwells(s, d.winner, i.now);
      DwellFits(cfg, s1, i, p, d.winner, due,
        [Summary(p.spot, p.base, d.winner, due, d.reason)] + ArmingLines(cfg, s1, d.winner, i.now));
    }
  }

  /** No plan the keeper submits can revert on the proxy's interval, translation or width checks, in
      the decision's own block or any later one, as long as the caps it read still stand. */
  lemma PlanPassesProxy(cfg: Config, s: KeeperState, i: Inputs, blockTs: int)
    requires WellFormed(cfg) && cfg.proxied
    requires i.caps.Some? ==>
      i.caps.value.maxTranslation >= 0 && i.caps.value.maxWidth >= 0 && i.caps.value.lastRebalanceTs >= 0
    requires blockTs >= i.now
    requires Evaluate(cfg, s, i).report.plan.Some?
    ensures i.position.Some? && i.caps.Some?
    ensures Accepts(i.caps.value, i.position.value.base, Evaluate(cfg, s, i).report.plan.value.base, blockTs)
  {
    EvaluationFits(cfg, s, i);
    var base, next := i.position.value.base, Evaluate(cfg, s, i).report.plan.value.base;
    ProxyMidIsBandMid(base);
    ProxyMidIsBandMid(next);
    WithinCaps(i.caps.value, base, next, blockTs);
  }

  lemma WithinCaps(caps: ProxyCaps, base: Band, next: Band, blockTs: int)
    requires caps.lastRebalanceTs == 0 || blockTs >= caps.lastRebalanceTs + caps.minIntervalSecs
    requires caps.exempted
      || (Abs(ProxyMid(next) - ProxyMid(base)) <= caps.maxTranslation
          && Abs((next.upper - next.lower) - (base.upper - base.lower)) <= caps.maxWidth)
    ensures Accepts(caps, base, next, blockTs)
  {
  }

  // --- the world around the keeper --------------------------------------------------------

  /** Governance settings that stay put for the run; the vault is not exempted. */
  datatype Limits = Limits(maxTranslation: nat, maxWidth: nat, intervalSecs: nat)

  /** A rebalance on its way: what it asks for, when it would be mined, and how many rebalances had been
      mined when its evaluation read the chain. */
  datatype Tx = Tx(after: Band, ts: int, seen: nat)

  datatype Landing = Landing(ts: int, before: Band, after: Band, seen: nat)

  /** The keeper, the band on chain, the proxy's own stamp, every rebalance mined so far, and those sent
      and not yet mined. */
  datatype World = World(keeper: KeeperState, base: Band, stampTs: int, landings: seq<Landing>, pending: seq<Tx>)

  /** The keeper does something, or the chain mines one of the transactions on their way. */
  datatype Happening = Runs(e: Event) | Mines(k: nat)

  function CapsOf(lim: Limits, w: World): ProxyCaps
  {
    ProxyCaps(lim.maxTranslation, lim.maxWidth, lim.intervalSecs, w.stampTs, false)
  }

  /** Reads tell what is mined by then, or throw; a transaction is mined no earlier than it was decided,
      and blocks come in time order; a restart recovers the proxy's stamp. Everything else is arbitrary:
      transactions may overtake each other, wait through any number of evaluations and restarts, be
      refused by the proxy, or never be mined. */
  predicate Honest(lim: Limits, w: World, x: Happening)
  {
    match x
    case Mines(k) => k < |w.pending| && w.pending[k].ts >= w.stampTs
    case Runs(Restart(ts)) => ts == w.stampTs
    case Runs(Block(i)) =>
      && i.now > 0
      && (i.position.Some? ==> i.position.value.base == w.base)
      && (i.caps.Some? ==> i.caps.value == CapsOf(lim, w))
      && (!i.submission.NotMined? ==> i.submission.landTs >= i.now)
  }

  function Without(ts: seq<Tx>, k: nat): seq<Tx>
    requires k < |ts|
  {
    ts[..k] + ts[k + 1..]
  }

  /** A transaction whose turn has come changes the vault if the proxy accepts it then, against the band
      and the stamp of that moment, and reverts otherwise. */
  function MineTx(lim: Limits, w: World, k: nat): World
    requires k < |w.pending|
  {
    var t, rest := w.pending[k], Without(w.pending, k);
    if Accepts(CapsOf(lim, w), w.base, t.after, t.ts) then
      World(w.keeper, t.after, t.ts, w.landings + [Landing(t.ts, w.base, t.after, t.seen)], rest)
    else w.(pending := rest)
  }

  function EvaluateIn(cfg: Config, w: World, i: Inputs): World
    requires cfg.spacing > 0
  {
    var step := Evaluate(cfg, w.keeper, i);
    if step.report.mined.None? || step.report.plan.None? then w.(keeper := step.state)
    else
      w.(keeper := step.state,
         pending := w.pending + [Tx(step.report.plan.value.base, step.report.mined.value, |w.landings|)])
  }

  function StepWorld(cfg: Config, lim: Limits, w: World, x: Happening): World
    requires cfg.spacing > 0
  {
    match x
    case Mines(k) => if k < |w.pending| then MineTx(lim, w, k) else w
    case Runs(Restart(ts)) => w.(keeper := InitialState(ts))
    case Runs(Block(i)) => EvaluateIn(cfg, w, i)
  }

  function RunWorld(cfg: Config, lim: Limits, w: World, h: seq<Happening>): World
    requires cfg.spacing > 0
  {
    if h == [] then w else StepWorld(cfg, lim, RunWorld(cfg, lim, w, h[..|h| - 1]), h[|h| - 1])
  }

  predicate HonestRun(cfg: Config, lim: Limits, w: World, h: seq<Happening>)
    requires cfg.spacing > 0
  {
    h == [] || (HonestRun(cfg, lim, w, h[..|h| - 1]) && Honest(lim, RunWorld(cfg, lim, w, h[..|h| - 1]), h[|h| - 1]))
  }

  function IntervalSecs(cfg: Config, lim: Limits): int
  {
    Max(cfg.minIntervalSecs, lim.intervalSecs)
  }

  predicate Bounded(lim: Limits, before: Band, after: Band)
  {
    && Abs(BandMid(after) - BandMid(before)) <= lim.maxTranslation
    && Abs((after.upper - after.lower) - (before.upper - before.lower)) <= lim.maxWidth
  }

  /** The record of landings: each inside the caps, each starting where the previous one left the
      band, each at least the interval after it. */
  predicate Paced(lim: Limits, interval: int, ls: seq<Landing>)
  {
    && (forall k :: 0 <= k < |ls| ==> ls[k].ts > 0 && Bounded(lim, ls[k].before, ls[k].after))
    && (forall k :: 0 < k < |ls| ==> ls[k].before == ls[k - 1].after && ls[k].ts - ls[k - 1].ts >= interval)
  }

  // --- every interleaving ---------------------------------------------------------------------

  /** The record, the stamp and the band agree; block times do not go back; what is on its way will be
      mined after something was decided. */
  predicate InStep(w: World)
  {
    && (forall k :: 0 <= k < |w.pending| ==> w.pending[k].ts > 0)
    && (forall k :: 0 <= k < |w.landings| ==> 0 < w.landings[k].ts <= w.stampTs)
    && (w.landings != [] ==>
          w.landings[|w.landings| - 1].ts == w.stampTs && w.landings[|w.landings| - 1].after == w.base)
  }

  /** What the proxy's own checks leave of pacing: a full-range band is exempt from all of them. */
  predicate Proxied(lim: Limits, ls: seq<Landing>)
  {
    && (forall k :: 0 <= k < |ls| ==>
          ls[k].ts > 0 && (FullRange(ls[k].after) || Bounded(lim, ls[k].before, ls[k].after)))
    && (forall k :: 0 < k < |ls| ==>
          && ls[k].before == ls[k - 1].after
          && (FullRange(ls[k].after) || ls[k].ts - ls[k - 1].ts >= lim.intervalSecs))
  }

  lemma WithoutOne(ts: seq<Tx>, k: nat)
    requires k < |ts|
    ensures forall t :: t in Without(ts, k) ==> t in ts
  {
  }

  lemma MineKeepsStep(lim: Limits, w: World, k: nat)
    requires InStep(w) && Honest(lim, w, Mines(k))
    ensures InStep(MineTx(lim, w, k))
  {
    WithoutOne(w.pending, k);
    var w' := MineTx(lim, w, k);
    assert forall j :: 0 <= j < |w.landings| ==> w'.landings[j] == w.landings[j];
  }

  /** What an evaluation sends would be mined after the decision. */
  lemma SentIsLater(cfg: Config, lim: Limits, w: World, i: Inputs)
    requires WellFormed(cfg) && Honest(lim, w, Runs(Block(i)))
    ensures var r := Evaluate(cfg, w.keeper, i).report; r.mined.Some? ==> r.plan.Some? && r.mined.value > 0
  {
    EvaluationFits(cfg, w.keeper, i);
  }

  lemma MoreOnTheWay(w: World, s: KeeperState, ts: seq<Tx>)
    requires InStep(w) && forall k :: 0 <= k < |ts| ==> ts[k].ts > 0
    ensures InStep(w.(keeper := s, pending := w.pending + ts))
  {
  }

  lemma SendKeepsStep(cfg: Config, lim: Limits, w: World, i: Inputs)
    requires WellFormed(cfg) && InStep(w) && Honest(lim, w, Runs(Block(i)))
    ensures InStep(EvaluateIn(cfg, w, i))
  {
    SentIsLater(cfg, lim, w, i);
    var w' := EvaluateIn(cfg, w, i);
    MoreOnTheWay(w, w'.keeper, w'.pending[|w.pending|..]);
    assert w'.pending == w.pending + w'.pending[|w.pending|..];
  }

  lemma AcceptedIsBounded(lim: Limits, w: World, k: nat)
    requires k < |w.pending| && Accepts(CapsOf(lim, w), w.base, w.pending[k].after, w.pending[k].ts)
    ensures FullRange(w.pending[k].after)
      || (Bounded(lim, w.base, w.pending[k].after)
          && (w.stampTs != 0 ==> w.pending[k].ts - w.stampTs >= lim.intervalSecs))
  {
    ProxyMidIsBandMid(w.base);
    ProxyMidIsBandMid(w.pending[k].after);
  }

  lemma MineKeepsProxied(lim: Limits, w: World, k: nat)
    requires InStep(w) && Honest(lim, w, Mines(k)) && Proxied(lim, w.landings)
    ensures Proxied(lim, MineTx(lim, w, k).landings)
  {
    if Accepts(CapsOf(lim, w), w.base, w.pending[k].after, w.pending[k].ts) {
      AcceptedIsBounded(lim, w, k);
      var ls, n := MineTx(lim, w, k).landings, |w.landings|;
      forall j | 0 < j < |ls|
        ensures ls[j].before == ls[j - 1].after
        ensures FullRange(ls[j].after) || ls[j].ts - ls[j - 1].ts >= lim.intervalSecs
      {
        assert ls[j - 1] == w.landings[j - 1];
        if j < n { assert ls[j] == w.landings[j]; }
      }
      forall j | 0 <= j < |ls|
        ensures ls[j].ts > 0 && (FullRange(ls[j].after) || Bounded(lim, ls[j].before, ls[j].after))
      {
        if j < n { assert ls[j] == w.landings[j]; }
      }
    }
  }

  /** However transactions, evaluations and restarts interleave, nothing is mined sooner after the landing
      before it than the proxy's interval, or outside its caps, except a full-range band. */
  lemma {:induction false} EveryRunObeysTheProxy(cfg: Config, lim: Limits, w: World, h: seq<Happening>)
    requires WellFormed(cfg) && InStep(w) && w.landings == []
    requires HonestRun(cfg, lim, w, h)
    ensures InStep(RunWorld(cfg, lim, w, h)) && Proxied(lim, RunWorld(cfg, lim, w, h).landings)
  {
    if h != [] {
      var prev := RunWorld(cfg, lim, w, h[..|h| - 1]);
      EveryRunObeysTheProxy(cfg, lim, w, h[..|h| - 1]);
      match h[|h| - 1]
      case Mines(k) =>
        MineKeepsStep(lim, prev, k);
        MineKeepsProxied(lim, prev, k);
      case Runs(Restart(_)) =>
      case Runs(Block(i)) => SendKeepsStep(cfg, lim, prev, i);
    }
  }

  // --- no band is full range ----------------------------------------------------------------------

  /** Neither half width reaches the full range, so neither does any band centred with it. */
  predicate Narrow(cfg: Config)
  {
    && 2 * (cfg.baseHalfWidthMult * cfg.spacing) + cfg.spacing < 2 * FULL_RANGE
    && 2 * (cfg.elevatedHalfWidthMult * cfg.spacing) + cfg.spacing < 2 * FULL_RANGE
  }

  lemma CentredIsNarrow(tick: int, mult: int, spacing: int)
    requires spacing > 0 && mult >= 0 && 2 * (mult * spacing) + spacing < 2 * FULL_RANGE
    ensures !FullRange(CenteredBand(tick, mult, spacing))
  {
    CenteredBandShape(tick, mult, spacing);
  }

  lemma PlanIsNarrow(cfg: Config, s: KeeperState, i: Inputs)
    requires WellFormed(cfg) && Narrow(cfg)
    requires i.position.Some? ==> !FullRange(i.position.value.base)
    ensures var r := Evaluate(cfg, s, i).report; r.plan.Some? ==> !FullRange(r.plan.value.base)
  {
    EveryPlanIsWellFounded(cfg, s, i);
    if Seen(cfg, i).Some? {
      AimIsNarrow(cfg, i, i.position.value, Seen(cfg, i).value, MultUnder(cfg, s, i));
    }
  }

  lemma AimIsNarrow(cfg: Config, i: Inputs, p: Position, w: Winner, mult: int)
    requires WellFormed(cfg) && Narrow(cfg) && !FullRange(p.base)
    requires mult == cfg.baseHalfWidthMult || mult == cfg.elevatedHalfWidthMult
    ensures forall b :: PlacedAt(cfg, i, p, w, mult, b) ==> !FullRange(b)
  {
    var tick := PlacementTick(cfg, i, p.spot);
    CentredIsNarrow(tick, mult, cfg.spacing);
    if cfg.proxied && i.caps.Some? {
      var c, step := BandMid(p.base), i.caps.value.maxTranslation - 2 * cfg.spacing;
      CentredIsNarrow(c + step, mult, cfg.spacing);
      CentredIsNarrow(c - step, mult, cfg.spacing);
    }
  }

  predicate AllNarrow(w: World)
  {
    && !FullRange(w.base)
    && (forall k :: 0 <= k < |w.pending| ==> !FullRange(w.pending[k].after))
    && (forall k :: 0 <= k < |w.landings| ==> !FullRange(w.landings[k].after))
  }

  lemma {:induction false} EveryBandIsNarrow(cfg: Config, lim: Limits, w: World, h: seq<Happening>)
    requires WellFormed(cfg) && Narrow(cfg) && AllNarrow(w) && HonestRun(cfg, lim, w, h)
    ensures AllNarrow(RunWorld(cfg, lim, w, h))
  {
    if h != [] {
      var prev := RunWorld(cfg, lim, w, h[..|h| - 1]);
      EveryBandIsNarrow(cfg, lim, w, h[..|h| - 1]);
      match h[|h| - 1]
      case Mines(k) => WithoutOne(prev.pending, k);
      case Runs(Restart(_)) =>
      case Runs(Block(i)) => PlanIsNarrow(cfg, prev.keeper, i);
    }
  }

  /** So with band widths short of the full range, every interleaving is paced by the proxy's interval. */
  lemma EveryRunIsPacedByTheProxy(cfg: Config, lim: Limits, w: World, h: seq<Happening>)
    requires WellFormed(cfg) && Narrow(cfg) && InStep(w) && AllNarrow(w) && w.landings == []
    requires HonestRun(cfg, lim, w, h)
    ensures Paced(lim, lim.intervalSecs, RunWorld(cfg, lim, w, h).landings)
  {
    EveryRunObeysTheProxy(cfg, lim, w, h);
    EveryBandIsNarrow(cfg, lim, w, h);
  }

  // --- the keeper's own floor -------------------------------------------------------------------

  /** What a transaction's evaluation saw mined is at least the interval before it. */
  predicate Clear(interval: int, ls: seq<Landing>, ts: int, seen: nat)
  {
    seen <= |ls| && forall a :: 0 <= a < seen ==> ts - ls[a].ts >= interval
  }

  predicate SeenAreSpaced(interval: int, w: World)
  {
    && (forall b :: 0 <= b < |w.landings| ==>
          w.landings[b].seen <= b && Clear(interval, w.landings, w.landings[b].ts, w.landings[b].seen))
    && (forall k :: 0 <= k < |w.pending| ==> Clear(interval, w.landings, w.pending[k].ts, w.pending[k].seen))
  }

  lemma ClearStays(interval: int, ls: seq<Landing>, l: Landing, ts: int, seen: nat)
    requires Clear(interval, ls, ts, seen)
    ensures Clear(interval, ls + [l], ts, seen)
  {
  }

  lemma MineKeepsSpaced(lim: Limits, interval: int, w: World, k: nat)
    requires k < |w.pending| && SeenAreSpaced(interval, w)
    ensures SeenAreSpaced(interval, MineTx(lim, w, k))
  {
    WithoutOne(w.pending, k);
    var t, w' := w.pending[k], MineTx(lim, w, k);
    if w'.landings != w.landings {
      var l := Landing(t.ts, w.base, t.after, t.seen);
      forall b | 0 <= b < |w'.landings|
        ensures w'.landings[b].seen <= b && Clear(interval, w'.landings, w'.landings[b].ts, w'.landings[b].seen)
      {
        ClearStays(interval, w.landings, l, w'.landings[b].ts, w'.landings[b].seen);
      }
      forall j | 0 <= j < |w'.pending| ensures Clear(interval, w'.landings, w'.pending[j].ts, w'.pending[j].seen) {
        assert w'.pending[j] in w.pending;
        ClearStays(interval, w.landings, l, w'.pending[j].ts, w'.pending[j].seen);
      }
    }
  }

  /** The cooldown an evaluation passed, counted from the stamp it read. */
  lemma SentIsClear(cfg: Config, lim: Limits, w: World, i: Inputs)
    requires WellFormed(cfg) && cfg.proxied && InStep(w) && Honest(lim, w, Runs(Block(i)))
    requires Evaluate(cfg, w.keeper, i).report.mined.Some?
    ensures Clear(IntervalSecs(cfg, lim), w.landings, Evaluate(cfg, w.keeper, i).report.mined.value, |w.landings|)
  {
    EvaluationFits(cfg, w.keeper, i);
  }

  lemma SendKeepsSpaced(cfg: Config, lim: Limits, w: World, i: Inputs)
    requires WellFormed(cfg) && cfg.proxied && InStep(w) && Honest(lim, w, Runs(Block(i)))
    requires SeenAreSpaced(IntervalSecs(cfg, lim), w)
    ensures SeenAreSpaced(IntervalSecs(cfg, lim), EvaluateIn(cfg, w, i))
  {
    if Evaluate(cfg, w.keeper, i).report.mined.Some? { SentIsClear(cfg, lim, w, i); }
  }

  /** In every interleaving a landing comes at least the longer of the keeper's floor and the proxy's
      interval after every landing that was mined before its own evaluation read the chain. */
  lemma {:induction false} SeenLandingsAreSpaced(cfg: Config, lim: Limits, w: World, h: seq<Happening>)
    requires WellFormed(cfg) && cfg.proxied && InStep(w) && w.landings == [] && w.pending == []
    requires HonestRun(cfg, lim, w, h)
    ensures SeenAreSpaced(IntervalSecs(cfg, lim), RunWorld(cfg, lim, w, h))
  {
    if h != [] {
      var prev := RunWorld(cfg, lim, w, h[..|h| - 1]);
      SeenLandingsAreSpaced(cfg, lim, w, h[..|h| - 1]);
      EveryRunObeysTheProxy(cfg, lim, w, h[..|h| - 1]);
      match h[|h| - 1]
      case Mines(k) => MineKeepsSpaced(lim, IntervalSecs(cfg, lim), prev, k);
      case Runs(Restart(_)) =>
      case Runs(Block(i)) => SendKeepsSpaced(cfg, lim, prev, i);
    }
  }

  /** So only an overlap breaks the floor: of two consecutive landings too close together, the second was
      decided before the first was mined. */
  lemma OnlyOverlapsBreakTheFloor(cfg: Config, lim: Limits, w: World, h: seq<Happening>, k: nat)
    requires WellFormed(cfg) && cfg.proxied && InStep(w) && w.landings == [] && w.pending == []
    requires HonestRun(cfg, lim, w, h) && 0 < k < |RunWorld(cfg, lim, w, h).landings|
    ensures var ls := RunWorld(cfg, lim, w, h).landings;
      ls[k].ts - ls[k - 1].ts < IntervalSecs(cfg, lim) ==> ls[k].seen < k
  {
    SeenLandingsAreSpaced(cfg, lim, w, h);
    var ls := RunWorld(cfg, lim, w, h).landings;
    assert Clear(IntervalSecs(cfg, lim), ls, ls[k].ts, ls[k].seen);
  }

  // --- runs without an overlap --------------------------------------------------------------------

  /** Nothing is sent by an evaluation that read the chain while an earlier transaction was on its way. */
  predicate Careful(cfg: Config, w: World, x: Happening)
    requires cfg.spacing > 0
  {
    x.Runs? && x.e.Block? && Evaluate(cfg, w.keeper, x.e.i).report.mined.Some? ==> w.pending == []
  }

  predicate CarefulRun(cfg: Config, lim: Limits, w: World, h: seq<Happening>)
    requires cfg.spacing > 0
  {
    h == [] || (CarefulRun(cfg, lim, w, h[..|h| - 1]) && Careful(cfg, RunWorld(cfg, lim, w, h[..|h| - 1]), h[|h| - 1]))
  }

  /** At most one transaction on its way, decided on the chain as it still is. */
  predicate Alone(lim: Limits, w: World)
  {
    && |w.pending| <= 1
    && (forall k :: 0 <= k < |w.pending| ==>
          w.pending[k].seen == |w.landings| && Bounded(lim, w.base, w.pending[k].after))
    && (forall k :: 0 <= k < |w.landings| ==>
          w.landings[k].seen == k && Bounded(lim, w.landings[k].before, w.landings[k].after))
  }

  lemma SendKeepsAlone(cfg: Config, lim: Limits, w: World, i: Inputs)
    requires WellFormed(cfg) && cfg.proxied && Honest(lim, w, Runs(Block(i)))
    requires Alone(lim, w) && Careful(cfg, w, Runs(Block(i)))
    ensures Alone(lim, EvaluateIn(cfg, w, i))
  {
    EvaluationFits(cfg, w.keeper, i);
  }

  lemma MineKeepsAlone(lim: Limits, w: World, k: nat)
    requires k < |w.pending| && Alone(lim, w)
    ensures Alone(lim, MineTx(lim, w, k))
  {
  }

  lemma {:induction false} CarefulIsAlone(cfg: Config, lim: Limits, w: World, h: seq<Happening>)
    requires WellFormed(cfg) && cfg.proxied && w.landings == [] && w.pending == []
    requires HonestRun(cfg, lim, w, h) && CarefulRun(cfg, lim, w, h)
    ensures Alone(lim, RunWorld(cfg, lim, w, h))
  {
    if h != [] {
      var prev := RunWorld(cfg, lim, w, h[..|h| - 1]);
      CarefulIsAlone(cfg, lim, w, h[..|h| - 1]);
      match h[|h| - 1]
      case Mines(k) => MineKeepsAlone(lim, prev, k);
      case Runs(Restart(_)) =>
      case Runs(Block(i)) => SendKeepsAlone(cfg, lim, prev, i);
    }
  }

  /** Over every run in which no evaluation sends while another transaction is on its way, through throws,
      unlearned landings and restarts, landings are the longer of the two intervals apart and inside both
      caps, whatever the width of the bands. */
  lemma CarefulRunsArePaced(cfg: Config, lim: Limits, w: World, h: seq<Happening>)
    requires WellFormed(cfg) && cfg.proxied && InStep(w) && w.landings == [] && w.pending == []
    requires HonestRun(cfg, lim, w, h) && CarefulRun(cfg, lim, w, h)
    ensures Paced(lim, IntervalSecs(cfg, lim), RunWorld(cfg, lim, w, h).landings)
  {
    CarefulIsAlone(cfg, lim, w, h);
    SeenLandingsAreSpaced(cfg, lim, w, h);
    EveryRunObeysTheProxy(cfg, lim, w, h);
    var end := RunWorld(cfg, lim, w, h);
    forall k | 0 < k < |end.landings| ensures end.landings[k].ts - end.landings[k - 1].ts >= IntervalSecs(cfg, lim) {
      assert Clear(IntervalSecs(cfg, lim), end.landings, end.landings[k].ts, k);
    }
  }

  // --- exactly what an overlap costs -----------------------------------------------------------------

  predicate CapsAllow(lim: Limits, before: Band, after: Band)
  {
    FullRange(after) || Bounded(lim, before, after)
  }

  /** The proxy takes `first` and then, at `t2`, `second`. */
  predicate TakesBoth(lim: Limits, w: World, first: Band, second: Band, t1: int, t2: int)
  {
    && 0 < t1 && w.stampTs <= t1 <= t2
    && Accepts(CapsOf(lim, w), w.base, first, t1)
    && Accepts(CapsOf(lim, w.(stampTs := t1)), first, second, t2)
  }

  ghost predicate NeverTooClose(lim: Limits, interval: int, w: World, first: Band, second: Band)
  {
    forall t1, t2 :: TakesBoth(lim, w, first, second, t1, t2) ==> t2 - t1 >= interval
  }

  lemma AcceptsIs(lim: Limits, w: World, after: Band, ts: int)
    ensures Accepts(CapsOf(lim, w), w.base, after, ts) <==>
      CapsAllow(lim, w.base, after) && (FullRange(after) || w.stampTs == 0 || ts - w.stampTs >= lim.intervalSecs)
  {
    ProxyMidIsBandMid(w.base);
    ProxyMidIsBandMid(after);
  }

  /** The proxy's own interval is as long and applies, or the caps rule one of the two out. */
  predicate OrderIsSafe(lim: Limits, interval: int, w: World, first: Band, second: Band)
  {
    || (!FullRange(second) && lim.intervalSecs >= interval)
    || !(CapsAllow(lim, w.base, first) && CapsAllow(lim, first, second))
  }

  lemma OrderKeepsFloorExactly(lim: Limits, interval: int, w: World, first: Band, second: Band)
    requires w.stampTs >= 0 && interval > 0
    ensures NeverTooClose(lim, interval, w, first, second) <==> OrderIsSafe(lim, interval, w, first, second)
  {
    var t1 := w.stampTs + lim.intervalSecs + 1;
    var t2 := t1 + if FullRange(second) then 0 else lim.intervalSecs;
    forall a, b ensures TakesBoth(lim, w, first, second, a, b) <==>
      && 0 < a && w.stampTs <= a <= b
      && CapsAllow(lim, w.base, first) && (FullRange(first) || w.stampTs == 0 || a - w.stampTs >= lim.intervalSecs)
      && CapsAllow(lim, first, second) && (FullRange(second) || a == 0 || b - a >= lim.intervalSecs)
    {
      AcceptsIs(lim, w, first, a);
      AcceptsIs(lim, w.(stampTs := a, base := first), second, b);
    }
    if CapsAllow(lim, w.base, first) && CapsAllow(lim, first, second) {
      assert TakesBoth(lim, w, first, second, t1, t2);
    }
  }

  /** Two transactions sent by evaluations that saw the same chain, the first still on its way. */
  function Sent(w: World, first: Band, second: Band, t1: int, t2: int): World
  {
    w.(pending := [Tx(first, t1, |w.landings|), Tx(second, t2, |w.landings|)])
  }

  /** Both are mined and land, the k-th of them first. */
  predicate BothLand(lim: Limits, w: World, k: nat)
    requires |w.pending| == 2 && k < 2
  {
    var mid := MineTx(lim, w, k);
    && Honest(lim, w, Mines(k)) && Honest(lim, mid, Mines(0))
    && |MineTx(lim, mid, 0).landings| == |w.landings| + 2
  }

  lemma BothLandIs(lim: Limits, w: World, first: Band, second: Band, t1: int, t2: int)
    requires t1 > 0 && t2 > 0
    ensures BothLand(lim, Sent(w, first, second, t1, t2), 0) <==> TakesBoth(lim, w, first, second, t1, t2)
    ensures BothLand(lim, Sent(w, first, second, t1, t2), 1) <==> TakesBoth(lim, w, second, first, t2, t1)
  {
    var a, b := Tx(first, t1, |w.landings|), Tx(second, t2, |w.landings|);
    assert Without([a, b], 0) == [b] && Without([a, b], 1) == [a];
  }

  /** Whichever of them is mined first, and whenever, the other comes at least the interval later. */
  predicate FloorKept(lim: Limits, interval: int, w: World, first: Band, second: Band, t1: int, t2: int)
  {
    t1 > 0 && t2 > 0 ==>
      && (BothLand(lim, Sent(w, first, second, t1, t2), 0) ==> t2 - t1 >= interval)
      && (BothLand(lim, Sent(w, first, second, t1, t2), 1) ==> t1 - t2 >= interval)
  }

  lemma FloorKeptIs(lim: Limits, interval: int, w: World, first: Band, second: Band)
    requires w.stampTs >= 0
    ensures (forall t1, t2 :: FloorKept(lim, interval, w, first, second, t1, t2)) <==>
      NeverTooClose(lim, interval, w, first, second) && NeverTooClose(lim, interval, w, second, first)
  {
    forall t1, t2 | t1 > 0 && t2 > 0
      ensures FloorKept(lim, interval, w, first, second, t1, t2) <==>
        && (TakesBoth(lim, w, first, second, t1, t2) ==> t2 - t1 >= interval)
        && (TakesBoth(lim, w, second, first, t2, t1) ==> t1 - t2 >= interval)
    {
      BothLandIs(lim, w, first, second, t1, t2);
    }
    if forall t1, t2 :: FloorKept(lim, interval, w, first, second, t1, t2) {
      forall t1, t2 | TakesBoth(lim, w, first, second, t1, t2) ensures t2 - t1 >= interval {
        assert FloorKept(lim, interval, w, first, second, t1, t2);
      }
      forall t1, t2 | TakesBoth(lim, w, second, first, t1, t2) ensures t2 - t1 >= interval {
        assert FloorKept(lim, interval, w, first, second, t2, t1);
      }
    }
  }

  /** A transaction sent while another is on its way keeps the keeper's floor, whenever the two are mined and
      in whichever order, exactly when each order is safe: the floor itself does nothing for it. */
  lemma OverlapKeepsFloorExactly(lim: Limits, interval: int, w: World, first: Band, second: Band)
    requires w.stampTs >= 0 && interval > 0
    ensures (forall t1, t2 :: FloorKept(lim, interval, w, first, second, t1, t2)) <==>
      OrderIsSafe(lim, interval, w, first, second) && OrderIsSafe(lim, interval, w, second, first)
  {
    FloorKeptIs(lim, interval, w, first, second);
    OrderKeepsFloorExactly(lim, interval, w, first, second);
    OrderKeepsFloorExactly(lim, interval, w, second, first);
  }

  // --- distance over time -------------------------------------------------------------------

  /** Everything the midpoint travelled, back and forth. */
  function Travel(ls: seq<Landing>): int
  {
    if ls == [] then 0 else Abs(BandMid(ls[0].after) - BandMid(ls[0].before)) + Travel(ls[1..])
  }

  lemma PacedTail(lim: Limits, interval: int, ls: seq<Landing>)
    requires Paced(lim, interval, ls) && ls != []
    ensures Paced(lim, interval, ls[1..])
  {
    forall k | 0 < k < |ls| - 1
      ensures ls[1..][k].before == ls[1..][k - 1].after && ls[1..][k].ts - ls[1..][k - 1].ts >= interval
    {
      assert ls[1..][k] == ls[k + 1] && ls[1..][k - 1] == ls[k];
    }
  }

  lemma {:induction false} SpanAtLeast(lim: Limits, interval: int, ls: seq<Landing>)
    requires Paced(lim, interval, ls) && ls != []
    ensures ls[|ls| - 1].ts - ls[0].ts >= interval * (|ls| - 1)
  {
    if |ls| > 1 {
      PacedTail(lim, interval, ls);
      SpanAtLeast(lim, interval, ls[1..]);
      OneTimesMore(interval, |ls| - 1);
    }
  }

  lemma OneTimesMore(a: int, n: int)
    ensures a * n == a * (n - 1) + a
  {
  }

  /** Travel is within the cap per landing. */
  lemma {:induction false} TravelAtMost(lim: Limits, interval: int, ls: seq<Landing>)
    requires Paced(lim, interval, ls)
    ensures Travel(ls) <= lim.maxTranslation * |ls|
  {
    if ls != [] {
      PacedTail(lim, interval, ls);
      TravelAtMost(lim, interval, ls[1..]);
      OneTimesMore(lim.maxTranslation, |ls|);
    }
  }

  /** And never less than the net displacement. */
  lemma {:induction false} TravelAtLeast(lim: Limits, interval: int, ls: seq<Landing>)
    requires Paced(lim, interval, ls) && ls != []
    ensures Abs(BandMid(ls[|ls| - 1].after) - BandMid(ls[0].before)) <= Travel(ls)
  {
    if |ls| > 1 {
      PacedTail(lim, interval, ls);
      TravelAtLeast(lim, interval, ls[1..]);
      assert ls[1].before == ls[0].after;
    }
  }

  lemma MotionOf(lim: Limits, interval: int, ls: seq<Landing>, secs: int)
    requires interval > 0 && ls != [] && Paced(lim, interval, ls)
    requires ls[|ls| - 1].ts - ls[0].ts <= secs
    ensures Abs(BandMid(ls[|ls| - 1].after) - BandMid(ls[0].before)) <= Travel(ls)
    ensures Travel(ls) <= lim.maxTranslation * (1 + secs / interval)
  {
    SpanAtLeast(lim, interval, ls);
    TravelAtMost(lim, interval, ls);
    TravelAtLeast(lim, interval, ls);
    QuotientAtLeast(secs, interval, |ls| - 1);
    Monotone(lim.maxTranslation, |ls|, 1 + secs / interval);
  }

  lemma Monotone(a: int, x: int, y: int)
    requires a >= 0 && x <= y
    ensures a * x <= a * y
  {
    assert a * (y - x) >= 0;
  }

  lemma SliceIsPaced(lim: Limits, interval: int, all: seq<Landing>, a: nat, b: nat)
    requires Paced(lim, interval, all) && a <= b < |all|
    ensures Paced(lim, interval, all[a..b + 1])
  {
    var ls := all[a..b + 1];
    forall k | 0 < k < |ls| ensures ls[k].before == ls[k - 1].after && ls[k].ts - ls[k - 1].ts >= interval {
      assert ls[k] == all[a + k] && ls[k - 1] == all[a + k - 1];
    }
  }

  predicate MotionWithin(lim: Limits, interval: int, all: seq<Landing>, a: nat, b: nat, secs: int)
    requires interval > 0 && a <= b < |all|
  {
    && Abs(BandMid(all[b].after) - BandMid(all[a].before)) <= Travel(all[a..b + 1])
    && Travel(all[a..b + 1]) <= lim.maxTranslation * (1 + secs / interval)
  }

  lemma PacedMotion(lim: Limits, interval: int, all: seq<Landing>, a: nat, b: nat, secs: int)
    requires interval > 0 && Paced(lim, interval, all)
    requires a <= b < |all| && all[b].ts - all[a].ts <= secs
    ensures MotionWithin(lim, interval, all, a, b, secs)
  {
    SliceIsPaced(lim, interval, all, a, b);
    var ls := all[a..b + 1];
    assert ls[0] == all[a] && ls[|ls| - 1] == all[b];
    MotionOf(lim, interval, ls, secs);
  }

  /** Between any two landings of a run at most `secs` apart, the midpoint travels at most the
      translation cap times one plus the number of whole intervals in that time: the proxy's interval in
      every interleaving. */
  lemma BandMotionIsBounded(cfg: Config, lim: Limits, w: World, h: seq<Happening>, a: nat, b: nat, secs: int)
    requires WellFormed(cfg) && Narrow(cfg) && lim.intervalSecs > 0
    requires InStep(w) && AllNarrow(w) && w.landings == [] && HonestRun(cfg, lim, w, h)
    requires a <= b < |RunWorld(cfg, lim, w, h).landings|
    requires RunWorld(cfg, lim, w, h).landings[b].ts - RunWorld(cfg, lim, w, h).landings[a].ts <= secs
    ensures MotionWithin(lim, lim.intervalSecs, RunWorld(cfg, lim, w, h).landings, a, b, secs)
  {
    EveryRunIsPacedByTheProxy(cfg, lim, w, h);
    PacedMotion(lim, lim.intervalSecs, RunWorld(cfg, lim, w, h).landings, a, b, secs);
  }

  /** And the longer of the two intervals when no evaluation sends over an outstanding transaction. */
  lemma CarefulBandMotionIsBounded(cfg: Config, lim: Limits, w: World, h: seq<Happening>, a: nat, b: nat, secs: int)
    requires WellFormed(cfg) && cfg.proxied && IntervalSecs(cfg, lim) > 0
    requires InStep(w) && w.landings == [] && w.pending == []
    requires HonestRun(cfg, lim, w, h) && CarefulRun(cfg, lim, w, h)
    requires a <= b < |RunWorld(cfg, lim, w, h).landings|
    requires RunWorld(cfg, lim, w, h).landings[b].ts - RunWorld(cfg, lim, w, h).landings[a].ts <= secs
    ensures MotionWithin(lim, IntervalSecs(cfg, lim), RunWorld(cfg, lim, w, h).landings, a, b, secs)
  {
    CarefulRunsArePaced(cfg, lim, w, h);
    PacedMotion(lim, IntervalSecs(cfg, lim), RunWorld(cfg, lim, w, h).landings, a, b, secs);
  }
}
