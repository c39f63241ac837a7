/** Repeated landings at a constant price: when they settle, how fast, and when they never do. */
module BandWalk {
  import opened Wrappers
  import opened Ticks
  import opened Decide
  import opened Keeper

  /** A price that stays put (spot and average agree), gates that stay open, caps that do not change. */
  datatype Setting = Setting(cfg: Config, caps: ProxyCaps, tick: int, mult: int, totalSupply: nat, nav: real)

  /** What the vault holds in the pool. */
  datatype Vault = Vault(base: Band, limit: Band, baseLiquidity: nat, limitLiquidity: nat, legs: Legs)

  /** What a re-mint puts where: the side the surplus parks on, and how much. */
  datatype Mint = Mint(side: Side, baseLiquidity: nat, limitLiquidity: nat, amount: real)

  predicate RealMint(d: Mint)
  {
    d.amount >= 0.0 && d.baseLiquidity + d.limitLiquidity > 0
  }

  function PositionOf(g: Setting, v: Vault): Position
  {
    Position(g.tick, v.base, v.limit, v.limitLiquidity, v.legs,
             Some(SeedReads(v.baseLiquidity, g.totalSupply)), Some(g.nav))
  }

  function Fires(g: Setting, v: Vault): Winner
  {
    Triggers(g.cfg, PositionOf(g, v)).winner
  }

  /** A limit strictly to one side of the price holds one token only. */
  function OneSided(side: Side, amount: real): Legs
  {
    if side.Above? then Legs(amount, 0.0) else Legs(0.0, amount)
  }

  /** One landed action, if a trigger asks for one and the plan is not refused. */
  function Land(g: Setting, v: Vault, d: Mint): Vault
    requires g.cfg.spacing > 0
  {
    var w := Fires(g, v);
    if w == Hold then v
    else
      match PlanBase(g.cfg, w, v.base, Some(g.caps), g.tick, g.mult)
      case Unworkable => v
      case TooWide(_) => v
      case BaseAt(band, _) =>
        Vault(band, LimitRange(g.tick, g.cfg.spacing, d.side, g.cfg.limitWidthMult),
              d.baseLiquidity, d.limitLiquidity, OneSided(d.side, d.amount))
  }

  function LandAll(g: Setting, v: Vault, ds: seq<Mint>): Vault
    requires g.cfg.spacing > 0
    decreases |ds|
  {
    if ds == [] then v else LandAll(g, Land(g, v, ds[0]), ds[1..])
  }

  function Target(g: Setting): Band
    requires g.cfg.spacing > 0
  {
    CenteredBand(g.tick, g.mult, g.cfg.spacing)
  }

  function Gap(g: Setting, v: Vault): int
    requires g.cfg.spacing > 0
  {
    Abs(BandMid(Target(g)) - BandMid(v.base))
  }

  /** The settings under which no trigger can fire against the keeper's own fresh placement. */
  predicate Consistent(g: Setting)
  {
    && WellFormed(g.cfg)
    && g.mult > 0
    && (g.cfg.rebalanceThresholdMult >= 1 || g.cfg.spacing <= 2)
    && (g.cfg.refreshEnabled ==> g.cfg.refreshTicks >= 2 * g.cfg.spacing - 1)
    && (g.cfg.foldEnabled ==> g.cfg.foldMinShare > 0.0)
  }

  /** The walk's step, and the least it is sure to gain once the new band is on the grid. */
  function WalkStep(g: Setting): int { g.caps.maxTranslation - 2 * g.cfg.spacing }

  function Gain(g: Setting): int { WalkStep(g) - (g.cfg.spacing - 1) / 2 }

  /** The width cap never stands in the way. */
  predicate WidthFits(g: Setting, v: Vault)
  {
    var w, t := v.base.upper - v.base.lower, 2 * (g.mult * g.cfg.spacing);
    && g.caps.maxWidth >= g.cfg.spacing
    && Abs(t - w) <= g.caps.maxWidth
    && Abs(t + g.cfg.spacing - w) <= g.caps.maxWidth
  }

  // --- after a landing, only drift can fire ---------------------------------------------

  ghost predicate Fresh(g: Setting, v: Vault)
    requires g.cfg.spacing > 0
  {
    exists d: Mint :: FreshFrom(g, v, d)
  }

  predicate FreshFrom(g: Setting, v: Vault, d: Mint)
    requires g.cfg.spacing > 0
  {
    && RealMint(d)
    && v.limit == LimitRange(g.tick, g.cfg.spacing, d.side, g.cfg.limitWidthMult)
    && v.baseLiquidity == d.baseLiquidity && v.limitLiquidity == d.limitLiquidity
    && v.legs == OneSided(d.side, d.amount)
  }

  predicate Drifted(g: Setting, v: Vault)
  {
    ShouldRebalance(g.tick, v.base, g.cfg.spacing, g.cfg.rebalanceThresholdMult).fires
  }

  lemma FreshFiresOnlyDrift(g: Setting, v: Vault)
    requires Consistent(g) && Fresh(g, v)
    ensures Fires(g, v) == if Drifted(g, v) then Recenter else Hold
  {
    var d: Mint :| FreshFrom(g, v, d);
    LimitRangeShape(g.tick, g.cfg.spacing, d.side, g.cfg.limitWidthMult);
    if g.cfg.foldEnabled {
      OneSidedNeverFolds(v.legs, v.limitLiquidity, None, g.cfg.foldMinShare, g.cfg.foldMinLimitShare);
    }
  }

  // --- one landing ------------------------------------------------------------------------

  /** A clamped walk gains at least `Gain` and keeps short of the target. */
  lemma ClampGains(target: Band, current: Band, cap: int, mult: int, spacing: int)
    requires spacing > 0 && mult >= 0
    requires 2 * (cap - 2 * spacing) >= spacing
    ensures var r := ClampBandTranslation(target, current, cap, mult, spacing);
      && r.Clamp?
      && (r.band == target || (r.clamped
            && Abs(BandMid(target) - BandMid(r.band))
               <= Abs(BandMid(target) - BandMid(current)) - (cap - 2 * spacing - (spacing - 1) / 2)))
      && (r.clamped ==> PlacedWidth(r.band, mult, spacing))
  {
    var c, step := BandMid(current), cap - 2 * spacing;
    ClampRespectsCap(target, current, cap, mult, spacing);
    if BandMid(target) > c {
      CenteredBandShape(c + step, mult, spacing);
    } else {
      CenteredBandShape(c - step, mult, spacing);
    }
  }

  predicate PlacedWidth(b: Band, mult: int, spacing: int)
  {
    var w, t := b.upper - b.lower, 2 * (mult * spacing);
    w == t || w == t + spacing
  }

  /** A walk, or the last stretch of one, stays inside the width cap as well. */
  lemma WalkGains(g: Setting, v: Vault)
    requires Consistent(g) && WidthFits(g, v)
    requires !g.caps.exempted && 2 * WalkStep(g) >= g.cfg.spacing
    ensures var aim := PlanBase(g.cfg, Recenter, v.base, Some(g.caps), g.tick, g.mult);
      && aim.BaseAt?
      && WidthFits(g, v.(base := aim.band))
      && (aim.band == Target(g) || Gap(g, v.(base := aim.band)) <= Gap(g, v) - Gain(g))
  {
    ClampGains(Target(g), v.base, g.caps.maxTranslation, g.mult, g.cfg.spacing);
    CenteredBandShape(g.tick, g.mult, g.cfg.spacing);
  }

  lemma LandingStep(g: Setting, v: Vault, d: Mint)
    requires Consistent(g) && RealMint(d)
    requires g.caps.exempted || (WidthFits(g, v) && 2 * WalkStep(g) >= g.cfg.spacing)
    requires Fires(g, v) != Hold
    ensures var v' := Land(g, v, d);
      && FreshFrom(g, v', d)
      && (g.caps.exempted || WidthFits(g, v'))
      && (Fires(g, v) != Recenter ==> v'.base == v.base)
      && (Fires(g, v) == Recenter ==>
            v'.base == Target(g) || (!g.caps.exempted && Gap(g, v') <= Gap(g, v) - Gain(g)))
  {
    if !g.caps.exempted { WalkGains(g, v); }
  }

  lemma TargetIsQuiet(g: Setting, v: Vault)
    requires Consistent(g) && v.base == Target(g)
    ensures !Drifted(g, v)
  {
    PlacedBandIsQuiet(g.tick, g.mult, g.cfg.spacing, g.cfg.rebalanceThresholdMult);
  }

  // --- convergence --------------------------------------------------------------------------

  lemma {:induction false} QuietStays(g: Setting, v: Vault, ds: seq<Mint>)
    requires g.cfg.spacing > 0 && Fires(g, v) == Hold
    ensures LandAll(g, v, ds) == v
  {
    if ds != [] { QuietStays(g, v, ds[1..]); }
  }

  /** At a constant price every vault goes quiet, whatever it held and wherever its band was, within
      one landing plus one per `Gain` ticks of distance; and it stays quiet. Needs a step of at least
      half a spacing, or an exemption. */
  lemma {:induction false} EveryVaultSettles(g: Setting, v: Vault, ds: seq<Mint>)
    requires Consistent(g)
    requires g.caps.exempted || (WidthFits(g, v) && 2 * WalkStep(g) >= g.cfg.spacing)
    requires forall k :: 0 <= k < |ds| ==> RealMint(ds[k])
    requires |ds| >= if g.caps.exempted then 1 else 1 + Gap(g, v) / Gain(g)
    ensures Fires(g, LandAll(g, v, ds)) == Hold
    decreases |ds|
  {
    if Fires(g, v) == Hold {
      QuietStays(g, v, ds);
      return;
    }
    assert |ds| >= 1 by { if !g.caps.exempted { QuotientAtLeast(Gap(g, v), Gain(g), 0); } }
    var v' := Land(g, v, ds[0]);
    LandingStep(g, v, ds[0]);
    FreshFiresOnlyDrift(g, v');
    if v'.base == Target(g) { TargetIsQuiet(g, v'); }
    if Fires(g, v) != Recenter { NoDriftNoRecenter(g, v); }
    if Fires(g, v') == Hold {
      QuietStays(g, v', ds[1..]);
    } else {
      OneFewer(Gap(g, v), Gap(g, v'), Gain(g));
      EveryVaultSettles(g, v', ds[1..]);
    }
  }

  lemma NoDriftNoRecenter(g: Setting, v: Vault)
    requires Fires(g, v) != Recenter
    ensures !Drifted(g, v)
  {
  }

  lemma OneFewer(gap: int, gap': int, gain: int)
    requires gain > 0 && gap' <= gap - gain
    ensures gap' / gain <= gap / gain - 1
  {
    QuotientAtLeast(gap, gain, gap' / gain + 1);
  }

  // --- divergence -----------------------------------------------------------------------------

  /** The band one cell wide around the middle, with its midpoint in the middle of the cell. */
  function CellBand(cell: int, mult: int, spacing: int): Band
  {
    Band(cell - mult * spacing, cell + spacing + mult * spacing)
  }

  /** With a step shorter than half a spacing, the walk from a cell-centred band lands on the same
      band again: the whole step is lost to rounding. */
  lemma ShortStepGoesNowhere(target: Band, cell: int, cap: int, mult: int, spacing: int)
    requires spacing > 0 && mult >= 0 && Aligned(cell, spacing)
    requires 0 < cap - 2 * spacing && 2 * (cap - 2 * spacing) < spacing
    requires BandMid(target) - (cell + spacing / 2) > cap
    ensures ClampBandTranslation(target, CellBand(cell, mult, spacing), cap, mult, spacing)
         == Clamp(CellBand(cell, mult, spacing), true)
  {
    var half, step := mult * spacing, cap - 2 * spacing;
    assert half >= 0;
    assert BandMid(CellBand(cell, mult, spacing)) == cell + spacing / 2;
    var off := spacing / 2 + step;
    OffsetInCell(cell, off, spacing);
    CenteredBandExact(cell + off, mult, spacing);
  }

  lemma OffsetInCell(cell: int, off: int, spacing: int)
    requires spacing > 0 && Aligned(cell, spacing) && 0 <= off < spacing
    ensures (cell + off) % spacing == off
  {
    EuclidUnique(cell + off, spacing, cell / spacing, off);
  }

  /** Such a vault never goes quiet: however many rebalances land, the band is where it was, the price
      is still outside it, and the next rebalance is still wanted. */
  lemma {:induction false} ShortStepNeverSettles(g: Setting, v: Vault, cell: int, ds: seq<Mint>)
    requires WellFormed(g.cfg) && g.mult > 0 && Aligned(cell, g.cfg.spacing)
    requires !g.caps.exempted && g.caps.maxWidth >= 0
    requires 2 * WalkStep(g) < g.cfg.spacing
    requires v.base == CellBand(cell, g.mult, g.cfg.spacing)
    requires g.tick > v.base.upper && BandMid(Target(g)) - (cell + g.cfg.spacing / 2) > g.caps.maxTranslation
    ensures LandAll(g, v, ds).base == v.base
    ensures Fires(g, LandAll(g, v, ds)) == Recenter
    decreases |ds|
  {
    if ds != [] {
      ShortStepLandsInPlace(g, v, cell, ds[0]);
      ShortStepNeverSettles(g, Land(g, v, ds[0]), cell, ds[1..]);
    }
  }

  /** A step that is lost to rounding, or a cap that leaves no step at all. */
  lemma ShortStepLandsInPlace(g: Setting, v: Vault, cell: int, d: Mint)
    requires WellFormed(g.cfg) && g.mult > 0 && Aligned(cell, g.cfg.spacing)
    requires !g.caps.exempted && g.caps.maxWidth >= 0 && 2 * WalkStep(g) < g.cfg.spacing
    requires v.base == CellBand(cell, g.mult, g.cfg.spacing)
    requires g.tick > v.base.upper && BandMid(Target(g)) - (cell + g.cfg.spacing / 2) > g.caps.maxTranslation
    ensures Land(g, v, d).base == v.base
  {
    if WalkStep(g) > 0 { ShortStepGoesNowhere(Target(g), cell, g.caps.maxTranslation, g.mult, g.cfg.spacing); }
    else { CellMid(cell, g.mult, g.cfg.spacing); }
  }

  lemma CellMid(cell: int, mult: int, spacing: int)
    requires spacing > 0 && mult >= 0
    ensures BandMid(CellBand(cell, mult, spacing)) == cell + spacing / 2
    ensures CellBand(cell, mult, spacing).upper - CellBand(cell, mult, spacing).lower == 2 * (mult * spacing) + spacing
  {
    assert mult * spacing >= 0;
  }

  // --- exactly when every vault settles -----------------------------------------------------------

  predicate AllReal(ds: seq<Mint>)
  {
    forall k :: 0 <= k < |ds| ==> RealMint(ds[k])
  }

  /** Past some number of landings nothing fires any more. */
  ghost predicate Settles(g: Setting, v: Vault)
    requires g.cfg.spacing > 0
  {
    exists n: nat :: QuietAfter(g, v, n)
  }

  ghost predicate QuietAfter(g: Setting, v: Vault, n: nat)
    requires g.cfg.spacing > 0
  {
    forall ds :: AllReal(ds) && |ds| >= n ==> Fires(g, LandAll(g, v, ds)) == Hold
  }

  /** A cell-centred band far enough below the price. */
  function FarCell(g: Setting): int
    requires g.cfg.spacing > 0
  {
    g.tick - g.tick % g.cfg.spacing - (g.mult + 3 + Abs(g.caps.maxTranslation)) * g.cfg.spacing
  }

  lemma FarCellIsFar(g: Setting)
    requires g.cfg.spacing > 0 && g.mult > 0
    ensures var cell, s := FarCell(g), g.cfg.spacing;
      && Aligned(cell, s)
      && g.tick > CellBand(cell, g.mult, s).upper
      && BandMid(Target(g)) - (cell + s / 2) > g.caps.maxTranslation
  {
    var s, k := g.cfg.spacing, g.mult + 3 + Abs(g.caps.maxTranslation);
    var line := g.tick - g.tick % s;
    FarProduct(g.mult, Abs(g.caps.maxTranslation), s);
    GridBelow(g.tick, k, s);
    CenteredBandShape(g.tick, g.mult, s);
  }

  lemma FarProduct(mult: int, reach: int, spacing: int)
    requires spacing > 0 && mult > 0 && reach >= 0
    ensures (mult + 3 + reach) * spacing >= mult * spacing + 3 * spacing + reach && mult * spacing > 0
  {
    assert (mult + 3 + reach) * spacing == mult * spacing + 3 * spacing + reach * spacing;
    assert reach * (spacing - 1) >= 0;
  }

  lemma GridBelow(tick: int, k: int, spacing: int)
    requires spacing > 0
    ensures Aligned(tick - tick % spacing - k * spacing, spacing)
  {
    EuclidForm(tick, spacing);
    var q := tick / spacing;
    assert spacing * (q - k) == spacing * q - k * spacing;
    EuclidUnique(tick - tick % spacing - k * spacing, spacing, q - k, 0);
  }

  /** Under settings whose triggers agree with the keeper's own placements, and a width cap of at least
      one spacing, every vault whose band the width cap can take goes quiet exactly when the walk's step
      is at least half a spacing. */
  lemma SettlesExactly(g: Setting)
    requires Consistent(g) && !g.caps.exempted && g.caps.maxWidth >= g.cfg.spacing
    ensures (forall v :: WidthFits(g, v) ==> Settles(g, v)) <==> 2 * WalkStep(g) >= g.cfg.spacing
  {
    if 2 * WalkStep(g) >= g.cfg.spacing {
      forall v | WidthFits(g, v) ensures Settles(g, v) {
        LongStepSettles(g, v);
      }
    } else {
      var far := Vault(CellBand(FarCell(g), g.mult, g.cfg.spacing), Band(0, 0), 0, 0, Legs(0.0, 0.0));
      CellMid(FarCell(g), g.mult, g.cfg.spacing);
      assert WidthFits(g, far);
      FarNeverSettles(g, far);
    }
  }

  lemma LongStepSettles(g: Setting, v: Vault)
    requires Consistent(g) && !g.caps.exempted && WidthFits(g, v) && 2 * WalkStep(g) >= g.cfg.spacing
    ensures Settles(g, v)
  {
    QuotientAtLeast(Gap(g, v), Gain(g), 0);
    var n: nat := 1 + Gap(g, v) / Gain(g);
    forall ds | AllReal(ds) && |ds| >= n ensures Fires(g, LandAll(g, v, ds)) == Hold {
      EveryVaultSettles(g, v, ds);
    }
    assert QuietAfter(g, v, n);
  }

  lemma FarNeverSettles(g: Setting, v: Vault)
    requires Consistent(g) && !g.caps.exempted && g.caps.maxWidth >= 0 && 2 * WalkStep(g) < g.cfg.spacing
    requires v.base == CellBand(FarCell(g), g.mult, g.cfg.spacing)
    ensures !Settles(g, v)
  {
    FarCellIsFar(g);
    forall n: nat ensures !QuietAfter(g, v, n) {
      var ds := seq(n, _ => Mint(Above, 1, 0, 0.0));
      ShortStepNeverSettles(g, v, FarCell(g), ds);
      assert AllReal(ds) && |ds| >= n;
    }
  }

  /** The smallest case at the default spacing: cap 121, band [-600, 660], any target further up. */
  lemma StuckAtSpacingSixty(target: Band)
    requires BandMid(target) > 30 + 121
    ensures ClampBandTranslation(target, Band(-600, 660), 121, 10, 60) == Clamp(Band(-600, 660), true)
  {
    ShortStepGoesNowhere(target, 0, 121, 10, 60);
  }
}
