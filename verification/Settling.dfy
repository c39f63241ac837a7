/** The keeper's own runs at a constant price: what lands is what the walk predicts, so the vault goes
    quiet after a bounded number of landings, through restarts, waits and throws, behind the proxy or not. */
module Settling {
  import opened Wrappers
  import opened Ticks
  import opened Regime
  import opened Decide
  import opened Keeper
  import opened PriceSafety
  import opened BandWalk
  import BoundedMotion
  import KeeperRuns

  /** The keeper, the vault, and the mints of everything that has landed. */
  datatype Scene = Scene(keeper: KeeperState, vault: Vault, landed: seq<Mint>)

  /** A restart, or an evaluation together with what its mint would put where. */
  datatype Occasion = Restarts(ts: int) | Evaluates(i: Inputs, d: Mint)

  /** Reads of the setting as it stands, or reads that throw; the stamp and the intervals are arbitrary. */
  predicate Fits(g: Setting, c: Scene, o: Occasion)
  {
    o.Evaluates? ==>
      && RealMint(o.d) && o.i.side == o.d.side
      && (o.i.position.Some? ==> o.i.position.value == PositionOf(g, c.vault))
      && (o.i.twapTick.Some? ==> o.i.twapTick.value == g.tick)
      && (g.cfg.proxied && o.i.caps.Some? ==> SameCaps(g.caps, o.i.caps.value))
      && MultUnder(g.cfg, c.keeper, o.i) == g.mult
  }

  /** Behind the proxy, or in direct mode, where nothing holds a re-center back, as for an exempted vault. */
  predicate AnyMode(g: Setting)
  {
    g.cfg.proxied || g.caps.exempted
  }

  predicate SameCaps(a: ProxyCaps, b: ProxyCaps)
  {
    a.maxTranslation == b.maxTranslation && a.maxWidth == b.maxWidth && a.exempted == b.exempted
  }

  function Put(plan: Plan, d: Mint): Vault
  {
    Vault(plan.base, plan.limit, d.baseLiquidity, d.limitLiquidity, OneSided(d.side, d.amount))
  }

  /** A transaction is mined, learned of or not, before the next read. */
  function Act(g: Setting, c: Scene, o: Occasion): Scene
    requires g.cfg.spacing > 0
  {
    match o
    case Restarts(ts) => c.(keeper := InitialState(ts))
    case Evaluates(i, d) =>
      var step := Evaluate(g.cfg, c.keeper, i);
      if step.report.mined.None? || step.report.plan.None? then c.(keeper := step.state)
      else Scene(step.state, Put(step.report.plan.value, d), c.landed + [d])
  }

  function ActAll(g: Setting, c: Scene, h: seq<Occasion>): Scene
    requires g.cfg.spacing > 0
  {
    if h == [] then c else Act(g, ActAll(g, c, h[..|h| - 1]), h[|h| - 1])
  }

  predicate FitsAll(g: Setting, c: Scene, h: seq<Occasion>)
    requires g.cfg.spacing > 0
  {
    h == [] || (FitsAll(g, c, h[..|h| - 1]) && Fits(g, ActAll(g, c, h[..|h| - 1]), h[|h| - 1]))
  }

  // --- a landing is the walk's ---------------------------------------------------------------

  lemma SeenIsFires(g: Setting, v: Vault, i: Inputs)
    requires i.position == Some(PositionOf(g, v))
    ensures Seen(g.cfg, i) == Some(Fires(g, v))
  {
  }

  lemma PlanReadsCapsOnly(g: Setting, v: Vault, i: Inputs, w: Winner)
    requires g.cfg.spacing > 0 && AnyMode(g)
    requires g.cfg.proxied ==> i.caps.Some? && SameCaps(g.caps, i.caps.value)
    ensures PlanBase(g.cfg, w, v.base, if g.cfg.proxied then i.caps else None, g.tick, g.mult)
         == PlanBase(g.cfg, w, v.base, Some(g.caps), g.tick, g.mult)
  {
  }

  /** Whatever an evaluation sends, the vault it leaves is the one the walk predicts, and a trigger asked
      for it. */
  lemma LandingIsLand(g: Setting, c: Scene, i: Inputs, d: Mint)
    requires WellFormed(g.cfg) && AnyMode(g) && Fits(g, c, Evaluates(i, d))
    requires Evaluate(g.cfg, c.keeper, i).report.plan.Some?
    ensures Put(Evaluate(g.cfg, c.keeper, i).report.plan.value, d) == Land(g, c.vault, d)
    ensures Fires(g, c.vault) != Hold
  {
    EveryPlanIsWellFounded(g.cfg, c.keeper, i);
    PlannedIsArmed(g.cfg, c.keeper, i);
    SeenIsFires(g, c.vault, i);
    PlanReadsCapsOnly(g, c.vault, i, Fires(g, c.vault));
  }

  /** A plan is of the trigger seen, read its caps, and is never of none. */
  lemma PlannedIsArmed(cfg: Config, s: KeeperState, i: Inputs)
    requires WellFormed(cfg) && Evaluate(cfg, s, i).report.plan.Some?
    ensures Seen(cfg, i).Some? && Seen(cfg, i).value != Hold && (cfg.proxied ==> i.caps.Some?)
  {
    BoundedMotion.EvaluationFits(cfg, s, i);
    KeeperRuns.EvaluationStepsClocks(cfg, s, i);
  }

  lemma {:induction false} LandAllOneMore(g: Setting, v: Vault, ds: seq<Mint>, d: Mint)
    requires g.cfg.spacing > 0
    ensures LandAll(g, v, ds + [d]) == Land(g, LandAll(g, v, ds), d)
    decreases |ds|
  {
    if ds == [] {
      assert [d][1..] == [];
    } else {
      assert (ds + [d])[1..] == ds[1..] + [d];
      LandAllOneMore(g, Land(g, v, ds[0]), ds[1..], d);
    }
  }

  /** Over every run the vault is where landing the mints that landed puts it. */
  lemma {:induction false} RunIsLandAll(g: Setting, c: Scene, h: seq<Occasion>)
    requires WellFormed(g.cfg) && AnyMode(g) && c.landed == [] && FitsAll(g, c, h)
    ensures var e := ActAll(g, c, h); e.vault == LandAll(g, c.vault, e.landed) && AllReal(e.landed)
  {
    if h != [] {
      var e, o := ActAll(g, c, h[..|h| - 1]), h[|h| - 1];
      RunIsLandAll(g, c, h[..|h| - 1]);
      if o.Evaluates? && Act(g, e, o).landed != e.landed {
        LandingIsLand(g, e, o.i, o.d);
        LandAllOneMore(g, c.vault, e.landed, o.d);
      }
    }
  }

  /** Landings it may take: one, and one more for every stretch of the distance a walk is sure to gain. */
  function Enough(g: Setting, v: Vault): int
    requires g.cfg.spacing > 0 && (g.caps.exempted || 2 * WalkStep(g) >= g.cfg.spacing)
  {
    if g.caps.exempted then 1 else 1 + Gap(g, v) / Gain(g)
  }

  lemma EnoughIsQuiet(g: Setting, c: Scene, h: seq<Occasion>)
    requires Consistent(g) && AnyMode(g) && c.landed == [] && FitsAll(g, c, h)
    requires g.caps.exempted || (WidthFits(g, c.vault) && 2 * WalkStep(g) >= g.cfg.spacing)
    requires |ActAll(g, c, h).landed| >= Enough(g, c.vault)
    ensures Fires(g, ActAll(g, c, h).vault) == Hold
  {
    RunIsLandAll(g, c, h);
    EveryVaultSettles(g, c.vault, ActAll(g, c, h).landed);
  }

  /** A quiet vault is left alone: no evaluation lands anything on it. */
  lemma QuietLandsNothing(g: Setting, c: Scene, o: Occasion)
    requires WellFormed(g.cfg) && AnyMode(g) && Fits(g, c, o) && Fires(g, c.vault) == Hold
    ensures Act(g, c, o).vault == c.vault && Act(g, c, o).landed == c.landed
  {
    if o.Evaluates? && Evaluate(g.cfg, c.keeper, o.i).report.plan.Some? {
      LandingIsLand(g, c, o.i, o.d);
    }
  }

  /** No run of the keeper at a constant price lands more often than that, wherever the band started. */
  lemma {:induction false} LandingsAreFew(g: Setting, c: Scene, h: seq<Occasion>)
    requires Consistent(g) && AnyMode(g) && c.landed == [] && FitsAll(g, c, h)
    requires g.caps.exempted || (WidthFits(g, c.vault) && 2 * WalkStep(g) >= g.cfg.spacing)
    ensures |ActAll(g, c, h).landed| <= Enough(g, c.vault)
  {
    EnoughIsSome(g, c.vault);
    if h != [] {
      var before := h[..|h| - 1];
      LandingsAreFew(g, c, before);
      if |ActAll(g, c, before).landed| == Enough(g, c.vault) {
        EnoughIsQuiet(g, c, before);
        QuietLandsNothing(g, ActAll(g, c, before), h[|h| - 1]);
      }
    }
  }

  lemma EnoughIsSome(g: Setting, v: Vault)
    requires g.cfg.spacing > 0 && (g.caps.exempted || 2 * WalkStep(g) >= g.cfg.spacing)
    ensures Enough(g, v) >= 1
  {
    if !g.caps.exempted { QuotientAtLeast(Gap(g, v), Gain(g), 0); }
  }

  // --- a firing trigger lands ---------------------------------------------------------------------

  /** Nothing but the plan itself stands in the way: the dwell and the interval have passed, the price is
      trusted, and every later read and the submission go through. */
  predicate Ready(cfg: Config, s: KeeperState, i: Inputs, w: Winner)
    requires i.position.Some?
  {
    var s1 := StepDwells(s, w, i.now);
    var caps := if cfg.proxied then i.caps else None;
    && (cfg.proxied ==> i.caps.Some?)
    && DwellMet(cfg, s1, w, i.now) && !CoolingDown(cfg, s1, caps, i.now)
    && Trusted(cfg, i, i.position.value.spot) && RegimeUnder(cfg, s, i) != Extreme
    && !SweepThrows(i.sweep)
    && i.belowGasFloor == Some(false) && i.amountsReadable && !cfg.dryRun && i.preflightOk && i.submission.Confirmed?
  }

  lemma PlaceLands(cfg: Config, s: KeeperState, i: Inputs, p: Position, w: Winner, caps: Option<ProxyCaps>,
                   tick: int, mult: int, said: seq<Line>)
    requires cfg.spacing > 0 && PlanBase(cfg, w, p.base, caps, tick, mult).BaseAt?
    requires i.amountsReadable && !cfg.dryRun && i.preflightOk && i.submission.Confirmed?
    ensures Place(cfg, s, i, p, w, caps, tick, mult, said).report.exit == ExitLanded
  {
  }

  lemma SweepLands(cfg: Config, s: KeeperState, i: Inputs, p: Position, w: Winner, caps: Option<ProxyCaps>,
                   due: bool, gate: Gate, regime: Regime, mult: int, said: seq<Line>)
    requires cfg.spacing > 0 && gate == CheckPrice(cfg, i, p.spot) && gate.failed.None? && regime != Extreme
    requires PlanBase(cfg, w, p.base, caps, PlacementTick(cfg, i, p.spot), mult).BaseAt?
    requires !SweepThrows(i.sweep) && i.belowGasFloor == Some(false)
    requires i.amountsReadable && !cfg.dryRun && i.preflightOk && i.submission.Confirmed?
    ensures AfterRegime(cfg, s, i, p, w, caps, true, due, gate, regime, mult, said).report.exit == ExitLanded
  {
    GateOpensExactly(cfg, i, p.spot);
    var r := StepSweep(s, i, due, gate, regime, said);
    PlaceLands(cfg, r.state, i, p, w, caps, PlacementTick(cfg, i, p.spot), mult, r.lines);
  }

  lemma GateLands(cfg: Config, s0: KeeperState, s: KeeperState, i: Inputs, p: Position, w: Winner,
                  caps: Option<ProxyCaps>, due: bool, said: seq<Line>)
    requires cfg.spacing > 0 && s.prices == s0.prices && s.regime == s0.regime && s.volFetchedAt == s0.volFetchedAt
    requires Trusted(cfg, i, p.spot) && RegimeUnder(cfg, s0, i) != Extreme
    requires PlanBase(cfg, w, p.base, caps, PlacementTick(cfg, i, p.spot), MultUnder(cfg, s0, i)).BaseAt?
    requires !SweepThrows(i.sweep) && i.belowGasFloor == Some(false)
    requires i.amountsReadable && !cfg.dryRun && i.preflightOk && i.submission.Confirmed?
    ensures AfterCooldown(cfg, s, i, p, w, caps, true, due, said).report.exit == ExitLanded
  {
    var gate := CheckPrice(cfg, i, p.spot);
    GateOpensExactly(cfg, i, p.spot);
    if cfg.regimeEnabled {
      var r := EvaluateRegime(cfg, s, i, gate);
      RegimeJudged(cfg, s0, s, i, p);
      SweepLands(cfg, r.state, i, p, w, caps, due, gate, r.decision.regime, MultUnder(cfg, s0, i),
        said + gate.lines + r.lines);
    } else {
      SweepLands(cfg, s, i, p, w, caps, due, gate, Calm, cfg.baseHalfWidthMult, said + gate.lines);
    }
  }

  lemma DwellLands(cfg: Config, s0: KeeperState, s: KeeperState, i: Inputs, p: Position, w: Winner, due: bool,
                   said: seq<Line>)
    requires cfg.spacing > 0 && s.prices == s0.prices && s.regime == s0.regime && s.volFetchedAt == s0.volFetchedAt
    requires i.position == Some(p) && s == StepDwells(s0, w, i.now) && Ready(cfg, s0, i, w)
    requires PlanBase(cfg, w, p.base, if cfg.proxied then i.caps else None,
                      PlacementTick(cfg, i, p.spot), MultUnder(cfg, s0, i)).BaseAt?
    ensures AfterDwell(cfg, s, i, p, w, due, said).report.exit == ExitLanded
  {
    GateLands(cfg, s0, s, i, p, w, if cfg.proxied then i.caps else None, due, said);
  }

  /** A trigger that fires lands once its dwell and the interval have passed, unless the clamp or the width
      cap refuses the plan. */
  lemma ReadyLands(cfg: Config, s: KeeperState, i: Inputs, w: Winner)
    requires cfg.spacing > 0 && Seen(cfg, i) == Some(w) && Ready(cfg, s, i, w)
    requires PlanBase(cfg, w, i.position.value.base, if cfg.proxied then i.caps else None,
                      PlacementTick(cfg, i, i.position.value.spot), MultUnder(cfg, s, i)).BaseAt?
    ensures Evaluate(cfg, s, i).report.exit == ExitLanded
  {
    var p := i.position.value;
    var d := Triggers(cfg, p);
    var due := CompoundDue(cfg, s, i.now);
    var s1 := StepDwells(s, d.winner, i.now);
    DwellLands(cfg, s, s1, i, p, w, due,
      [Summary(p.spot, p.base, d.winner, due, d.reason)] + ArmingLines(cfg, s1, d.winner, i.now));
  }

  // --- so every run with enough chances settles ------------------------------------------------------

  /** An evaluation at which either nothing fires or what fires is ready. */
  predicate Chance(g: Setting, c: Scene, o: Occasion)
  {
    && o.Evaluates? && o.i.position.Some?
    && (Fires(g, c.vault) == Hold || Ready(g.cfg, c.keeper, o.i, Fires(g, c.vault)))
  }

  function Chances(g: Setting, c: Scene, h: seq<Occasion>): nat
    requires g.cfg.spacing > 0
  {
    if h == [] then 0
    else Chances(g, c, h[..|h| - 1]) + if Chance(g, ActAll(g, c, h[..|h| - 1]), h[|h| - 1]) then 1 else 0
  }

  lemma ChanceLands(g: Setting, c: Scene, o: Occasion)
    requires Consistent(g) && AnyMode(g) && Fits(g, c, o) && Chance(g, c, o) && Fires(g, c.vault) != Hold
    requires g.caps.exempted || (WidthFits(g, c.vault) && 2 * WalkStep(g) >= g.cfg.spacing)
    ensures Act(g, c, o).landed == c.landed + [o.d]
  {
    var w := Fires(g, c.vault);
    SeenIsFires(g, c.vault, o.i);
    PlanReadsCapsOnly(g, c.vault, o.i, w);
    AimIsTaken(g, c.vault, w);
    ReadyLands(g.cfg, c.keeper, o.i, w);
    KeeperRuns.EvaluationStepsClocks(g.cfg, c.keeper, o.i);
  }

  lemma AimIsTaken(g: Setting, v: Vault, w: Winner)
    requires Consistent(g)
    requires g.caps.exempted || (WidthFits(g, v) && 2 * WalkStep(g) >= g.cfg.spacing)
    ensures PlanBase(g.cfg, w, v.base, Some(g.caps), g.tick, g.mult).BaseAt?
  {
    if !g.caps.exempted { WalkGains(g, v); }
  }

  /** The width cap keeps fitting along a run. */
  lemma {:induction false} WidthKeepsFitting(g: Setting, c: Scene, h: seq<Occasion>)
    requires Consistent(g) && AnyMode(g) && FitsAll(g, c, h)
    requires g.caps.exempted || (WidthFits(g, c.vault) && 2 * WalkStep(g) >= g.cfg.spacing)
    ensures g.caps.exempted || WidthFits(g, ActAll(g, c, h).vault)
  {
    if h != [] {
      var e, o := ActAll(g, c, h[..|h| - 1]), h[|h| - 1];
      WidthKeepsFitting(g, c, h[..|h| - 1]);
      if o.Evaluates? && Act(g, e, o).vault != e.vault {
        LandingIsLand(g, e, o.i, o.d);
        LandingStep(g, e.vault, o.d);
      }
    }
  }

  lemma {:induction false} ChancesAreTaken(g: Setting, c: Scene, h: seq<Occasion>)
    requires Consistent(g) && AnyMode(g) && c.landed == [] && FitsAll(g, c, h)
    requires g.caps.exempted || (WidthFits(g, c.vault) && 2 * WalkStep(g) >= g.cfg.spacing)
    ensures Fires(g, ActAll(g, c, h).vault) == Hold || |ActAll(g, c, h).landed| >= Chances(g, c, h)
  {
    if h != [] {
      var e, o := ActAll(g, c, h[..|h| - 1]), h[|h| - 1];
      ChancesAreTaken(g, c, h[..|h| - 1]);
      if Fires(g, e.vault) == Hold {
        QuietLandsNothing(g, e, o);
      } else if Chance(g, e, o) {
        WidthKeepsFitting(g, c, h[..|h| - 1]);
        ChanceLands(g, e, o);
      }
    }
  }

  /** After that many chances, whatever else the run holds, no trigger fires any more. */
  lemma EveryRunSettles(g: Setting, c: Scene, h: seq<Occasion>)
    requires Consistent(g) && AnyMode(g) && c.landed == [] && FitsAll(g, c, h)
    requires g.caps.exempted || (WidthFits(g, c.vault) && 2 * WalkStep(g) >= g.cfg.spacing)
    requires Chances(g, c, h) >= Enough(g, c.vault)
    ensures Fires(g, ActAll(g, c, h).vault) == Hold
  {
    ChancesAreTaken(g, c, h);
    if Fires(g, ActAll(g, c, h).vault) != Hold { EnoughIsQuiet(g, c, h); }
  }
}
