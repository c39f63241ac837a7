/** Whole runs of the keeper: any sequence of evaluated blocks and restarts. */
module KeeperRuns {
  import opened Wrappers
  import opened Ticks
  import opened Keeper
  import opened Regime

  /** A block the keeper evaluated, or a restart that recovered the last rebalance time. */
  datatype Event = Block(i: Inputs) | Restart(recoveredTs: int)

  function Run(cfg: Config, bootTs: int, h: seq<Event>): KeeperState
    requires cfg.spacing > 0
  {
    if h == [] then InitialState(bootTs)
    else
      match h[|h| - 1]
      case Restart(ts) => InitialState(ts)
      case Block(i) => Evaluate(cfg, Run(cfg, bootTs, h[..|h| - 1]), i).state
  }

  /** The evaluation sent a transaction that is mined, whether the keeper learns of it or not. */
  predicate MinedAt(cfg: Config, bootTs: int, h: seq<Event>, j: nat)
    requires cfg.spacing > 0 && j < |h|
  {
    h[j].Block? && Evaluate(cfg, Run(cfg, bootTs, h[..j]), h[j].i).report.mined.Some?
  }

  /** The keeper saw it confirmed. */
  predicate LearnedAt(cfg: Config, bootTs: int, h: seq<Event>, j: nat)
    requires cfg.spacing > 0 && j < |h|
  {
    h[j].Block? && Evaluate(cfg, Run(cfg, bootTs, h[..j]), h[j].i).report.exit == ExitLanded
  }

  predicate UnseenAt(cfg: Config, bootTs: int, h: seq<Event>, j: nat)
    requires cfg.spacing > 0 && j < |h|
  {
    MinedAt(cfg, bootTs, h, j) && h[j].i.submission.MinedUnseen?
  }

  // --- what one evaluation does to the memory that gates it --------------------------

  predicate SameClocks(s: KeeperState, t: KeeperState)
  {
    s.dwellSince == t.dwellSince && s.refreshDwellSince == t.refreshDwellSince && s.foldDwellSince == t.foldDwellSince
  }

  /** Past the dwell, an evaluation either learns that what was armed has landed and restarts everything, or
      leaves the clocks and the cooldown alone; whatever it plans or sends is what was armed. */
  predicate LandsOrKeeps(s: KeeperState, w: Winner, armed: bool, i: Inputs, step: Step)
  {
    && (if step.report.exit == ExitLanded then step.state == Landed(step.state, i.now) && step.report.mined.Some?
        else step.state.lastRebalanceTs == s.lastRebalanceTs && SameClocks(step.state, s))
    && (step.report.mined.Some? ==> step.report.plan.Some?)
    && (step.report.mined.Some? && step.report.exit != ExitLanded ==> i.submission.MinedUnseen?)
    && (step.report.exit == ExitLanded ==> i.submission.Confirmed?)
    && (step.report.plan.Some? ==> armed && step.report.plan.value.kind == w)
  }

  lemma PlaceTail(cfg: Config, s: KeeperState, i: Inputs, p: Position, w: Winner, caps: Option<ProxyCaps>,
                  tick: int, mult: int, said: seq<Line>)
    requires cfg.spacing > 0
    ensures LandsOrKeeps(s, w, true, i, Place(cfg, s, i, p, w, caps, tick, mult, said))
    ensures Place(cfg, s, i, p, w, caps, tick, mult, said).report.exit != ExitArming
  {
  }

  lemma SweepTail(cfg: Config, s: KeeperState, i: Inputs, p: Position, w: Winner, caps: Option<ProxyCaps>,
                  armed: bool, gate: Gate, regime: Regime, mult: int, said: seq<Line>)
    requires cfg.spacing > 0
    ensures LandsOrKeeps(s, w, armed, i, AfterSweep(cfg, s, i, p, w, caps, armed, gate, regime, mult, said))
    ensures AfterSweep(cfg, s, i, p, w, caps, armed, gate, regime, mult, said).report.exit != ExitArming
  {
    PlaceTail(cfg, s, i, p, w, caps, if gate.twapTick.Some? then gate.twapTick.value else p.spot, mult, said);
  }

  lemma RegimeTail(cfg: Config, s: KeeperState, i: Inputs, p: Position, w: Winner, caps: Option<ProxyCaps>,
                   armed: bool, due: bool, gate: Gate, regime: Regime, mult: int, said: seq<Line>)
    requires cfg.spacing > 0
    ensures LandsOrKeeps(s, w, armed, i, AfterRegime(cfg, s, i, p, w, caps, armed, due, gate, regime, mult, said))
    ensures AfterRegime(cfg, s, i, p, w, caps, armed, due, gate, regime, mult, said).report.exit != ExitArming
  {
    var r := StepSweep(s, i, due, gate, regime, said);
    SweepTail(cfg, r.state, i, p, w, caps, armed, gate, regime, mult, r.lines);
  }

  lemma CooldownTail(cfg: Config, s: KeeperState, i: Inputs, p: Position, w: Winner, caps: Option<ProxyCaps>,
                     armed: bool, due: bool, said: seq<Line>)
    requires cfg.spacing > 0
    ensures LandsOrKeeps(s, w, armed, i, AfterCooldown(cfg, s, i, p, w, caps, armed, due, said))
    ensures AfterCooldown(cfg, s, i, p, w, caps, armed, due, said).report.exit != ExitArming
  {
    var gate := CheckPrice(cfg, i, p.spot);
    var r := EvaluateRegime(cfg, s, i, gate);
    if cfg.regimeEnabled {
      RegimeTail(cfg, r.state, i, p, w, caps, armed, due, gate, r.decision.regime,
        BandMultForRegime(r.decision.regime, cfg.baseHalfWidthMult, cfg.elevatedHalfWidthMult),
        said + gate.lines + r.lines);
    } else {
      RegimeTail(cfg, s, i, p, w, caps, armed, due, gate, Calm, cfg.baseHalfWidthMult, said + gate.lines);
    }
  }

  lemma DwellTail(cfg: Config, s: KeeperState, i: Inputs, p: Position, w: Winner, due: bool, said: seq<Line>)
    requires cfg.spacing > 0
    ensures var step := AfterDwell(cfg, s, i, p, w, due, said);
      && LandsOrKeeps(s, w, DwellMet(cfg, s, w, i.now), i, step)
      && (DwellMet(cfg, s, w, i.now) ==> step.report.exit != ExitArming)
  {
    var r := StepCooldown(cfg, s, i, w, said);
    if r.Ready? { CooldownTail(cfg, s, i, p, w, r.caps, r.armed, due, r.lines); }
  }

  /** One evaluation, seen from outside: it throws before seeing a trigger and changes no clock; or it
      steps exactly the clock of the trigger it saw, clears the others, and may land that trigger if
      its dwell is met. */
  lemma EvaluationStepsClocks(cfg: Config, s: KeeperState, i: Inputs)
    requires cfg.spacing > 0
    ensures var step := Evaluate(cfg, s, i); var seen := Seen(cfg, i);
      if seen.None? then
        && step.report.exit != ExitLanded && step.report.plan.None? && step.report.mined.None?
        && SameClocks(step.state, s) && step.state.lastRebalanceTs == s.lastRebalanceTs
      else LandsOrKeeps(StepDwells(s, seen.value, i.now), seen.value,
                        DwellMet(cfg, StepDwells(s, seen.value, i.now), seen.value, i.now), i, step)
  {
    if Seen(cfg, i).Some? {
      var p := i.position.value;
      var d := Triggers(cfg, p);
      var due := CompoundDue(cfg, s, i.now);
      var s1 := StepDwells(s, d.winner, i.now);
      DwellTail(cfg, s1, i, p, d.winner, due,
        [Summary(p.spot, p.base, d.winner, due, d.reason)] + ArmingLines(cfg, s1, d.winner, i.now));
    }
  }

  // --- dwell safety -------------------------------------------------------------------

  /** Nothing interrupts trigger `w` at event `j`: no restart, no landing the keeper learned of, and if the
      evaluation saw a trigger at all, it saw this one. */
  predicate Continues(cfg: Config, bootTs: int, h: seq<Event>, j: nat, w: Winner)
    requires cfg.spacing > 0 && j < |h|
  {
    && h[j].Block?
    && !LearnedAt(cfg, bootTs, h, j)
    && (Seen(cfg, h[j].i).Some? ==> Seen(cfg, h[j].i).value == w)
  }

  /** The unbroken stretch of `w` that ends the history, and the first sighting in it. */
  predicate HeldFrom(cfg: Config, bootTs: int, h: seq<Event>, w: Winner, first: nat)
    requires cfg.spacing > 0
  {
    && first < |h|
    && (forall j :: first <= j < |h| ==> Continues(cfg, bootTs, h, j, w))
    && h[first].Block? && Seen(cfg, h[first].i) == Some(w)
  }

  lemma ContinuesInPrefix(cfg: Config, bootTs: int, h: seq<Event>, n: nat, j: nat, w: Winner)
    requires cfg.spacing > 0 && j < n <= |h|
    ensures Continues(cfg, bootTs, h[..n], j, w) == Continues(cfg, bootTs, h, j, w)
  {
    assert h[..n][..j] == h[..j];
  }

  /** A stretch that ends the history without its last event also ends the history if that event
      continues it, and the other way round. */
  lemma HeldFromStep(cfg: Config, bootTs: int, h: seq<Event>, w: Winner, first: nat)
    requires cfg.spacing > 0 && h != [] && first < |h| - 1
    ensures HeldFrom(cfg, bootTs, h, w, first)
        <==> HeldFrom(cfg, bootTs, h[..|h| - 1], w, first) && Continues(cfg, bootTs, h, |h| - 1, w)
  {
    var before := h[..|h| - 1];
    if HeldFrom(cfg, bootTs, h, w, first) {
      forall j | first <= j < |before| ensures Continues(cfg, bootTs, before, j, w) {
        ContinuesInPrefix(cfg, bootTs, h, |before|, j, w);
      }
    } else if HeldFrom(cfg, bootTs, before, w, first) && Continues(cfg, bootTs, h, |h| - 1, w) {
      forall j | first <= j < |h| ensures Continues(cfg, bootTs, h, j, w) {
        if j < |before| { ContinuesInPrefix(cfg, bootTs, h, |before|, j, w); }
      }
    }
  }

  predicate TimesNonZero(h: seq<Event>)
  {
    forall j :: 0 <= j < |h| && h[j].Block? ==> h[j].i.now != 0
  }

  /** What a dwell clock means. It is running exactly when the history ends in an unbroken stretch of
      its trigger, and it then shows the time of the earliest sighting in that stretch: not later, as
      no stretch reaches further back, and not earlier, as `first` itself starts one. */
  lemma {:induction false} ClockIsStartOfStretch(cfg: Config, bootTs: int, h: seq<Event>, w: Winner)
      returns (first: nat)
    requires cfg.spacing > 0 && w != Hold
    requires TimesNonZero(h)
    ensures var c := Clock(Run(cfg, bootTs, h), w);
      && (c != 0 ==> HeldFrom(cfg, bootTs, h, w, first) && h[first].i.now == c)
      && (c == 0 ==> first == |h|)
    ensures forall k: nat :: HeldFrom(cfg, bootTs, h, w, k) ==> first <= k
  {
    if h == [] { return 0; }
    var last := h[|h| - 1];
    var before := h[..|h| - 1];
    var prev := ClockIsStartOfStretch(cfg, bootTs, before, w);
    var c0 := Clock(Run(cfg, bootTs, before), w);
    if last.Restart? || LearnedAt(cfg, bootTs, h, |h| - 1)
       || (Seen(cfg, last.i).Some? && Seen(cfg, last.i).value != w) {
      assert !Continues(cfg, bootTs, h, |h| - 1, w);
      if last.Block? { EvaluationStepsClocks(cfg, Run(cfg, bootTs, before), last.i); }
      return |h|;
    }
    assert Continues(cfg, bootTs, h, |h| - 1, w);
    EvaluationStepsClocks(cfg, Run(cfg, bootTs, before), last.i);
    forall k: nat | HeldFrom(cfg, bootTs, h, w, k) && k < |h| - 1 ensures prev <= k {
      HeldFromStep(cfg, bootTs, h, w, k);
    }
    if c0 != 0 {
      HeldFromStep(cfg, bootTs, h, w, prev);
      first := prev;
    } else {
      first := if Seen(cfg, last.i).Some? then |h| - 1 else |h|;
    }
  }

  predicate PlannedAs(step: Step, w: Winner)
  {
    step.report.plan.Some? && step.report.plan.value.kind == w
  }

  /** Dwell safety, for every run: a plan of any kind, sent or not, ends an unbroken stretch of evaluations
      that all saw that same trigger (or threw before seeing one), with no restart and no learned landing
      in it, that began at least `dwellSecs` before. */
  lemma PlanServedItsDwell(cfg: Config, bootTs: int, h: seq<Event>, i: Inputs, w: Winner) returns (first: nat)
    requires cfg.spacing > 0 && TimesNonZero(h)
    requires PlannedAs(Evaluate(cfg, Run(cfg, bootTs, h), i), w)
    ensures Seen(cfg, i) == Some(w) && w != Hold
    ensures first == |h| || HeldFrom(cfg, bootTs, h, w, first)
    ensures i.now - (if first == |h| then i.now else h[first].i.now) >= cfg.dwellSecs
  {
    EvaluationStepsClocks(cfg, Run(cfg, bootTs, h), i);
    first := ClockIsStartOfStretch(cfg, bootTs, h, w);
  }

  predicate NoneMined(cfg: Config, bootTs: int, h: seq<Event>, first: nat)
    requires cfg.spacing > 0
  {
    forall j :: first <= j < |h| ==> !MinedAt(cfg, bootTs, h, j)
  }

  predicate NoneUnseen(cfg: Config, bootTs: int, h: seq<Event>, first: nat)
    requires cfg.spacing > 0
  {
    forall j :: first <= j < |h| ==> !UnseenAt(cfg, bootTs, h, j)
  }

  /** So every landing, learned of or not, has served its dwell; and the stretch it served holds no other
      landing at all exactly when no evaluation in it sent one that was mined without being learned of. */
  lemma LandingServedItsDwell(cfg: Config, bootTs: int, h: seq<Event>, i: Inputs, w: Winner) returns (first: nat)
    requires cfg.spacing > 0 && TimesNonZero(h)
    requires Evaluate(cfg, Run(cfg, bootTs, h), i).report.mined.Some?
    requires PlannedAs(Evaluate(cfg, Run(cfg, bootTs, h), i), w)
    ensures Seen(cfg, i) == Some(w) && w != Hold
    ensures first == |h| || HeldFrom(cfg, bootTs, h, w, first)
    ensures i.now - (if first == |h| then i.now else h[first].i.now) >= cfg.dwellSecs
    ensures NoneMined(cfg, bootTs, h, first) <==> NoneUnseen(cfg, bootTs, h, first)
  {
    first := PlanServedItsDwell(cfg, bootTs, h, i, w);
    if first < |h| { StretchLandings(cfg, bootTs, h, w, first); }
  }

  lemma StretchLandings(cfg: Config, bootTs: int, h: seq<Event>, w: Winner, first: nat)
    requires cfg.spacing > 0 && HeldFrom(cfg, bootTs, h, w, first)
    ensures NoneMined(cfg, bootTs, h, first) <==> NoneUnseen(cfg, bootTs, h, first)
  {
    forall j | first <= j < |h|
      ensures MinedAt(cfg, bootTs, h, j) <==> UnseenAt(cfg, bootTs, h, j)
    {
      assert Continues(cfg, bootTs, h, j, w);
      MinedIsLearnedOrUnseen(cfg, bootTs, h, j);
    }
  }

  lemma MinedIsLearnedOrUnseen(cfg: Config, bootTs: int, h: seq<Event>, j: nat)
    requires cfg.spacing > 0 && j < |h|
    ensures MinedAt(cfg, bootTs, h, j) <==> LearnedAt(cfg, bootTs, h, j) || UnseenAt(cfg, bootTs, h, j)
  {
    if h[j].Block? {
      EvaluationStepsClocks(cfg, Run(cfg, bootTs, h[..j]), h[j].i);
    }
  }

  /** Whatever is mined, seen or unseen, is of the trigger its evaluation saw. */
  lemma EveryLandingIsOfAKind(cfg: Config, s: KeeperState, i: Inputs)
    requires cfg.spacing > 0
    requires Evaluate(cfg, s, i).report.mined.Some?
    ensures Seen(cfg, i).Some? && PlannedAs(Evaluate(cfg, s, i), Seen(cfg, i).value)
  {
    EvaluationStepsClocks(cfg, s, i);
  }

  /** What the cooldown counts from: the decision time of the last landing learned of, or the stamp the last
      restart recovered. */
  function CountsFrom(cfg: Config, bootTs: int, h: seq<Event>): int
    requires cfg.spacing > 0
  {
    if h == [] then bootTs
    else
      match h[|h| - 1]
      case Restart(ts) => ts
      case Block(i) =>
        if LearnedAt(cfg, bootTs, h, |h| - 1) then i.now else CountsFrom(cfg, bootTs, h[..|h| - 1])
  }

  /** Over every run that is what the keeper's own stamp shows, and a landing learned of stops every clock. */
  lemma {:induction false} CooldownCountsFromDecision(cfg: Config, bootTs: int, h: seq<Event>)
    requires cfg.spacing > 0
    ensures Run(cfg, bootTs, h).lastRebalanceTs == CountsFrom(cfg, bootTs, h)
    ensures h != [] && LearnedAt(cfg, bootTs, h, |h| - 1) ==>
      forall w: Winner :: Clock(Run(cfg, bootTs, h), w) == 0
  {
    if h != [] && h[|h| - 1].Block? {
      CooldownCountsFromDecision(cfg, bootTs, h[..|h| - 1]);
      EvaluationStepsClocks(cfg, Run(cfg, bootTs, h[..|h| - 1]), h[|h| - 1].i);
    }
  }

  /** The other direction: an evaluation whose trigger has been in sight, unbroken, for the dwell is
      never sent home as still arming. */
  lemma HeldLongEnoughIsArmed(cfg: Config, bootTs: int, h: seq<Event>, i: Inputs, k: nat)
    requires cfg.spacing > 0 && TimesNonZero(h)
    requires Seen(cfg, i).Some? && Seen(cfg, i).value != Hold
    requires HeldFrom(cfg, bootTs, h, Seen(cfg, i).value, k)
    requires forall j :: 0 <= j <= k && h[j].Block? ==> i.now - h[j].i.now >= cfg.dwellSecs
    ensures var w := Seen(cfg, i).value;
      DwellMet(cfg, StepDwells(Run(cfg, bootTs, h), w, i.now), w, i.now)
    ensures Evaluate(cfg, Run(cfg, bootTs, h), i).report.exit != ExitArming
  {
    var w := Seen(cfg, i).value;
    var first := ClockIsStartOfStretch(cfg, bootTs, h, w);
    ArmedIsNotArming(cfg, Run(cfg, bootTs, h), i);
  }

  lemma ArmedIsNotArming(cfg: Config, s: KeeperState, i: Inputs)
    requires cfg.spacing > 0
    requires Seen(cfg, i).Some?
    requires DwellMet(cfg, StepDwells(s, Seen(cfg, i).value, i.now), Seen(cfg, i).value, i.now)
    ensures Evaluate(cfg, s, i).report.exit != ExitArming
  {
    var p, d := i.position.value, Triggers(cfg, i.position.value);
    var due := CompoundDue(cfg, s, i.now);
    var s1 := StepDwells(s, d.winner, i.now);
    DwellTail(cfg, s1, i, p, d.winner, due,
      [Summary(p.spot, p.base, d.winner, due, d.reason)] + ArmingLines(cfg, s1, d.winner, i.now));
  }

  /** Whatever happened, at most one of the three dwell clocks is running. */
  lemma {:induction false} AtMostOneClock(cfg: Config, bootTs: int, h: seq<Event>, v: Winner, w: Winner)
    requires cfg.spacing > 0
    requires v != w
    ensures Clock(Run(cfg, bootTs, h), v) == 0 || Clock(Run(cfg, bootTs, h), w) == 0
  {
    if h != [] {
      AtMostOneClock(cfg, bootTs, h[..|h| - 1], v, w);
      if h[|h| - 1].Block? {
        EvaluationStepsClocks(cfg, Run(cfg, bootTs, h[..|h| - 1]), h[|h| - 1].i);
      }
    }
  }
}
