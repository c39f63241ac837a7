/** The volatility regime: immediate entry into `Extreme`, delayed exit from it. */
module Regime {
  import opened Wrappers

  datatype Regime = Calm | Elevated | Extreme

  /** `None` is "unknown": no vol data, no sample that old, or a pause check that failed. */
  datatype RegimeInput = RegimeInput(
    volRatio: Option<real>,
    move15m: Option<real>,
    move1h: Option<real>,
    feedHealthy: bool,
    reservePaused: Option<bool>)

  datatype Thresholds = Thresholds(
    volRatioElevated: real,
    move15mElevated: real,
    move1hExtreme: real,
    reentrySecs: int)

  datatype RegimeState = RegimeState(regime: Regime, since: int, calmSince: Option<int>)

  datatype RegimeDecision = RegimeDecision(regime: Regime, changed: bool, state: RegimeState)

  const BLANK := RegimeState(Calm, 0, None)

  function RawRegime(i: RegimeInput, t: Thresholds): Regime
  {
    if i.reservePaused != Some(false) then Extreme
    else if !i.feedHealthy then Extreme
    else if i.move1h.Some? && i.move1h.value >= t.move1hExtreme then Extreme
    else if i.volRatio.Some? && i.volRatio.value >= t.volRatioElevated then Elevated
    else if i.move15m.Some? && i.move15m.value >= t.move15mElevated then Elevated
    else Calm
  }

  function NextRegime(i: RegimeInput, t: Thresholds, prev: RegimeState, now: int): RegimeDecision
  {
    var raw := RawRegime(i, t);
    if prev.regime.Extreme? && !raw.Extreme? then
      var calmSince := if prev.calmSince.Some? then prev.calmSince.value else now;
      if now - calmSince < t.reentrySecs then
        RegimeDecision(Extreme, false, prev.(calmSince := Some(calmSince)))
      else
        RegimeDecision(raw, true, RegimeState(raw, now, None))
    else
      var changed := raw != prev.regime;
      RegimeDecision(raw, changed,
        if changed then RegimeState(raw, now, None)
        else prev.(calmSince := if raw.Extreme? then None else prev.calmSince))
  }

  /** Half-width multiple of the band: never narrower than the base setting. */
  function BandMultForRegime(regime: Regime, baseMult: int, elevatedMult: int): int
  {
    if regime.Calm? then baseMult else if baseMult >= elevatedMult then baseMult else elevatedMult
  }

  // --- what the readings decide ---------------------------------------------------

  /** Out of `Extreme`, the answer is extreme exactly when the reserve is not read to be live, the feed is
      unhealthy, or the hour's move is known and large. */
  lemma ExtremeExactly(i: RegimeInput, t: Thresholds, prev: RegimeState, now: int)
    requires prev.regime != Extreme
    ensures NextRegime(i, t, prev, now).regime == Extreme <==>
      || i.reservePaused != Some(false) || !i.feedHealthy
      || (i.move1h.Some? && i.move1h.value >= t.move1hExtreme)
  {
  }

  /** Volume and the quarter hour's move can widen the band, never stop the quoting. */
  lemma ShortMoveIsNeverExtreme(i: RegimeInput, volRatio: Option<real>, move15m: Option<real>, t: Thresholds,
                                prev: RegimeState, now: int)
    ensures NextRegime(i, t, prev, now).regime == Extreme
      <==> NextRegime(i.(volRatio := volRatio, move15m := move15m), t, prev, now).regime == Extreme
  {
  }

  /** Out of `Extreme` and short of it, the market is elevated exactly on a known volume or a known quarter
      hour's move at its threshold, and calm on neither. */
  lemma ElevatedExactly(i: RegimeInput, t: Thresholds, prev: RegimeState, now: int)
    requires prev.regime != Extreme && NextRegime(i, t, prev, now).regime != Extreme
    ensures NextRegime(i, t, prev, now).regime == Elevated <==>
      || (i.volRatio.Some? && i.volRatio.value >= t.volRatioElevated)
      || (i.move15m.Some? && i.move15m.value >= t.move15mElevated)
    ensures NextRegime(i, t, prev, now).regime in {Calm, Elevated}
  {
  }

  /** The band is never narrower than in calm, and disturbed never narrower than the elevated setting. */
  lemma DisturbedIsWider(regime: Regime, baseMult: int, elevatedMult: int)
    ensures BandMultForRegime(Calm, baseMult, elevatedMult) == baseMult
    ensures BandMultForRegime(regime, baseMult, elevatedMult) >= baseMult
    ensures regime != Calm ==> BandMultForRegime(regime, baseMult, elevatedMult) >= elevatedMult
    ensures BandMultForRegime(regime, baseMult, elevatedMult) in {baseMult, elevatedMult}
  {
  }

  // --- whole runs -----------------------------------------------------------------

  /** One regime evaluation: what was read, and when. */
  datatype Reading = Reading(input: RegimeInput, now: int)

  function Run(t: Thresholds, h: seq<Reading>): RegimeState
  {
    if h == [] then BLANK
    else NextRegime(h[|h| - 1].input, t, Run(t, h[..|h| - 1]), h[|h| - 1].now).state
  }

  predicate Disturbed(t: Thresholds, r: Reading)
  {
    RawRegime(r.input, t).Extreme?
  }

  /** Index of the first reading of the unbroken stretch of undisturbed readings that ends the
      history; `|h|` when the last reading is disturbed. Says nothing about the machine. */
  function QuietFrom(t: Thresholds, h: seq<Reading>): (i: nat)
    ensures i <= |h|
    ensures forall j :: i <= j < |h| ==> !Disturbed(t, h[j])
    ensures i > 0 ==> Disturbed(t, h[i - 1])
  {
    if h == [] || Disturbed(t, h[|h| - 1]) then |h| else QuietFrom(t, h[..|h| - 1])
  }

  /** The clock the machine carries is exactly the start of the current quiet stretch, it runs only
      inside `Extreme`, and the machine is never in `Extreme` without a disturbed reading behind it. */
  lemma {:induction false} ClockIsQuietStretch(t: Thresholds, h: seq<Reading>)
    ensures var s := Run(t, h); var i := QuietFrom(t, h);
      && (s.regime.Extreme? ==>
            && s.calmSince == (if i < |h| then Some(h[i].now) else None)
            && 0 < i)
      && (!s.regime.Extreme? ==> s.calmSince == None && (h != [] ==> i < |h|))
  {
    if h != [] {
      ClockIsQuietStretch(t, h[..|h| - 1]);
    }
  }

  /** When the machine leaves `Extreme`, for every history: exactly when the new reading is not
      disturbed and the unbroken quiet stretch it ends began at least `reentrySecs` earlier. The
      regime it leaves to is the raw one, and it stays in `Extreme` otherwise. */
  lemma {:induction false} LeavesExtremeExactly(t: Thresholds, h: seq<Reading>, r: Reading)
    requires Run(t, h).regime.Extreme?
    ensures var d := NextRegime(r.input, t, Run(t, h), r.now);
      var i := QuietFrom(t, h + [r]);
      && (!d.regime.Extreme? <==> i <= |h| && r.now - (h + [r])[i].now >= t.reentrySecs)
      && (!d.regime.Extreme? ==> d.regime == RawRegime(r.input, t))
      && (d.changed <==> !d.regime.Extreme?)
  {
    ClockIsQuietStretch(t, h);
    assert (h + [r])[..|h|] == h;
  }

  /** Entering needs no wait, and outside `Extreme` the regime simply is the raw one. */
  lemma {:induction false} EntersAtOnce(t: Thresholds, h: seq<Reading>, r: Reading)
    ensures var d := NextRegime(r.input, t, Run(t, h), r.now);
      && (Disturbed(t, r) ==> d.regime.Extreme?)
      && (!Run(t, h).regime.Extreme? ==> d.regime == RawRegime(r.input, t))
      && (d.changed <==> d.regime != Run(t, h).regime)
      && d.regime == Run(t, h + [r]).regime
      && (d.changed ==> Run(t, h + [r]).since == r.now)
      && (!d.changed ==> Run(t, h + [r]).since == Run(t, h).since)
  {
    ClockIsQuietStretch(t, h);
    assert (h + [r])[..|h|] == h;
  }

  /** Once a disturbance ends, the machine holds `Extreme` through the wait and is out at the first
      reading past it, however irregular the readings. */
  lemma {:induction false} SustainedQuietExits(t: Thresholds, h: seq<Reading>, quiet: seq<Reading>)
    requires h != [] && Disturbed(t, h[|h| - 1])
    requires quiet != []
    requires forall j :: 0 <= j < |quiet| ==> !Disturbed(t, quiet[j])
    requires forall j :: 0 <= j < |quiet| - 1 ==> quiet[j].now - quiet[0].now < t.reentrySecs
    ensures Run(t, h + quiet).regime
         == if quiet[|quiet| - 1].now - quiet[0].now < t.reentrySecs then Extreme
            else RawRegime(quiet[|quiet| - 1].input, t)
  {
    var front, last := quiet[..|quiet| - 1], quiet[|quiet| - 1];
    assert h + quiet == (h + front) + [last];
    if front == [] {
      assert h + front == h;
      EntersAtOnce(t, h[..|h| - 1], h[|h| - 1]);
      assert h[..|h| - 1] + [h[|h| - 1]] == h;
    } else {
      SustainedQuietExits(t, h, front);
    }
    EntersAtOnce(t, h + front, last);
    LeavesExtremeExactly(t, h + front, last);
    QuietStretch(t, h, quiet);
  }

  lemma {:induction false} QuietStretch(t: Thresholds, h: seq<Reading>, quiet: seq<Reading>)
    requires h != [] && Disturbed(t, h[|h| - 1])
    requires forall j :: 0 <= j < |quiet| ==> !Disturbed(t, quiet[j])
    ensures QuietFrom(t, h + quiet) == |h|
  {
    if quiet == [] {
      assert h + quiet == h;
    } else {
      assert (h + quiet)[..|h + quiet| - 1] == h + quiet[..|quiet| - 1];
      QuietStretch(t, h, quiet[..|quiet| - 1]);
    }
  }
}
