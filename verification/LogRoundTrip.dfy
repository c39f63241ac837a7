/** Every path through an evaluation, printed and read back. */
module LogRoundTrip {
  import opened Wrappers
  import opened Ticks
  import Decide
  import opened Regime
  import opened Keeper
  import opened StatusLog
  import KeeperRuns
  import Overlaps

  // --- folding lines ----------------------------------------------------------------------

  lemma {:induction false} ParseConcat(p: Pending, a: seq<Line>, b: seq<Line>)
    ensures ParseAll(p, a + b) == ParseAll(ParseAll(p, a), b)
  {
    if b == [] {
      assert a + b == a;
    } else {
      assert (a + b)[..|a + b| - 1] == a + b[..|b| - 1];
      ParseConcat(p, a, b[..|b| - 1]);
    }
  }

  lemma ParseOne(p: Pending, lines: seq<Line>, line: Line)
    ensures ParseAll(p, lines + [line]) == ParseLine(ParseAll(p, lines), line)
  {
    assert (lines + [line])[..|lines|] == lines;
  }

  /** Lines that end nothing: gate passes, regime news, sweep progress. */
  predicate Passing(line: Line)
  {
    || line.TwapOk? || line.OracleOk? || line.VolLine? || line.Noise? || line.RegimeChanged? || line.RegimeElevated?
    || line.CompoundSkipped? || line.CompoundInfo? || line.CompoundSubmitted? || line.Compounded?
    || line.ClampWalk? || line.Submitting?
  }

  /** Nothing terminal has been read yet. */
  predicate Underway(p: Pending, w: Winner, due: bool)
  {
    && !p.error && p.tx.None? && p.marks == {} && p.plan.None?
    && p.winner == Some(w) && p.compoundDue == due
    && (p.gateFail.Some? ==> p.gateFail.value.via == ViaCompound)
  }

  lemma PassingOne(p: Pending, line: Line, w: Winner, due: bool)
    requires Underway(p, w, due) && Passing(line)
    ensures Underway(ParseLine(p, line), w, due)
  {
    match line
    case CompoundSkipped(why) => PassingSkip(p, why, w, due);
    case TwapOk(_, _) =>
    case OracleOk(_, _, _) =>
    case VolLine =>
    case Noise =>
    case RegimeChanged(_) =>
    case RegimeElevated =>
    case CompoundInfo =>
    case CompoundSubmitted =>
    case Compounded =>
    case ClampWalk =>
    case Submitting =>
  }

  lemma PassingSkip(p: Pending, why: SkipReason, w: Winner, due: bool)
    requires Underway(p, w, due)
    ensures Underway(ParseLine(p, CompoundSkipped(why)), w, due)
  {
    match why
    case RegimeSkip(_) =>
    case OtherSkip =>
    case GateSkip(r) =>
      var p := p.(pastCooldown := true,
                  gateFail := Some(GateFail(FailedAtFor(r), ViaCompound)),
                  compound := Some(Compound(false, false, false)));
      NumbersKeep(p, r, w, due);
  }

  lemma NumbersKeep(p: Pending, r: GateReason, w: Winner, due: bool)
    requires Underway(p, w, due)
    ensures Underway(WithGateNumbers(p, r), w, due)
  {
  }

  lemma {:induction false} PassingKeeps(p: Pending, lines: seq<Line>, w: Winner, due: bool)
    requires Underway(p, w, due)
    requires forall k :: 0 <= k < |lines| ==> Passing(lines[k])
    ensures Underway(ParseAll(p, lines), w, due)
  {
    if lines != [] {
      PassingKeeps(p, lines[..|lines| - 1], w, due);
      PassingOne(ParseAll(p, lines[..|lines| - 1]), lines[|lines| - 1], w, due);
    }
  }

  lemma PassingAfter(p: Pending, said: seq<Line>, lines: seq<Line>, w: Winner, due: bool)
    requires Underway(ParseAll(p, said), w, due)
    requires forall k :: 0 <= k < |lines| ==> Passing(lines[k])
    ensures Underway(ParseAll(p, said + lines), w, due)
  {
    ParseConcat(p, said, lines);
    PassingKeeps(ParseAll(p, said), lines, w, due);
  }

  // --- past the cooldown: the record names the exit taken --------------------------------------

  /** What a record made of `q` says about the evaluation that printed it. */
  predicate Shows(q: Pending, report: Report, w: Winner)
  {
    var rec := Finalize(q);
    && rec.code == report.exit
    && rec.winner == Some(w)
    && rec.plan == report.plan
    && rec.tx == (if report.exit == ExitLanded then Some(w) else None)
    && (report.exit != ExitError ==> (rec.gate.Some? <==> report.gated))
  }

  predicate ReadsBack(p: Pending, report: Report, w: Winner)
  {
    Shows(ParseAll(p, report.lines), report, w)
  }

  /** A cycle with one terminal mark. */
  predicate Marked(q: Pending, exit: Exit, plan: Option<Plan>, w: Winner)
  {
    && !q.error && q.marks == {exit} && q.pastCooldown
    && q.plan == plan && q.winner == Some(w)
    && q.tx == (if exit == ExitLanded then Some(w) else None)
    && (q.gateFail.Some? && q.gateFail.value.via == ViaSkip ==> exit == ExitGateBlocked)
  }

  lemma MarkedShows(q: Pending, exit: Exit, lines: seq<Line>, plan: Option<Plan>, mined: Option<int>, w: Winner)
    requires Marked(q, exit, plan, w)
    requires exit !in {ExitHold, ExitArming, ExitCooldown, ExitCompoundOnly, ExitError}
    ensures Shows(q, Report(exit, lines, plan, true, mined), w)
  {
  }

  lemma FailureShows(q: Pending, lines: seq<Line>, gated: bool, mined: Option<int>, w: Winner)
    requires q.tx.None? && q.winner == Some(w)
    ensures Shows(ParseLine(q, Failure), Report(ExitError, lines, q.plan, gated, mined), w)
  {
  }

  lemma NoRegimeFeedMarks(q: Pending, w: Winner, due: bool)
    requires Underway(q, w, due)
    ensures Marked(ParseLine(q, NoRegimeFeed), ExitNoRegimeFeed, None, w)
  {
  }

  lemma GasMarks(q: Pending, w: Winner, due: bool)
    requires Underway(q, w, due)
    ensures Marked(ParseLine(q, SkipGas), ExitGasFloor, None, w)
  {
  }

  lemma TranslationMarks(q: Pending, w: Winner, due: bool)
    requires Underway(q, w, due)
    ensures Marked(ParseLine(q, SkipTranslation), ExitClampUnworkable, None, w)
  {
  }

  lemma WidthMarks(q: Pending, w: Winner, due: bool)
    requires Underway(q, w, due)
    ensures Marked(ParseLine(q, SkipWidth), ExitWidthCap, None, w)
  {
  }

  lemma GateMarks(q: Pending, w: Winner, due: bool, gate: GateReason)
    requires Underway(q, w, due)
    ensures Marked(ParseLine(q, SkipGate(gate)), ExitGateBlocked, None, w)
    ensures ParseLine(q, SkipGate(gate)).gateFail == Some(GateFail(FailedAtFor(gate), ViaSkip))
  {
  }

  lemma ExtremeLines(q: Pending, w: Winner, due: bool)
    requires Underway(q, w, due)
    ensures Marked(ParseLine(ParseLine(q, SkipExtreme), Noise), ExitRegimeExtreme, None, w)
  {
  }

  /** After the plan line. */
  predicate Planned(q: Pending, plan: Plan)
  {
    && !q.error && q.tx.None? && q.marks == {} && q.pastCooldown
    && q.plan == Some(plan) && q.winner == Some(plan.kind)
    && (q.gateFail.Some? ==> q.gateFail.value.via == ViaCompound)
  }

  lemma PlanLines(q: Pending, plan: Plan, due: bool)
    requires Underway(q, plan.kind, due)
    ensures Planned(ParseLine(q, PlanLine(plan)), plan)
  {
  }

  lemma DryRunMarks(q: Pending, plan: Plan)
    requires Planned(q, plan)
    ensures Marked(ParseLine(q, DryRunLine), ExitDryRun, Some(plan), plan.kind)
  {
  }

  lemma PreflightMarks(q: Pending, plan: Plan)
    requires Planned(q, plan)
    ensures Marked(ParseLine(q, PreflightRevertLine), ExitPreflightRevert, Some(plan), plan.kind)
  {
  }

  lemma SubmittingKeeps(q: Pending, plan: Plan)
    requires Planned(q, plan)
    ensures Planned(ParseLine(q, Submitting), plan)
  {
  }

  lemma LandedMarks(q: Pending, plan: Plan)
    requires Planned(q, plan)
    ensures Marked(ParseLine(q, LandedLine(plan.kind)), ExitLanded, Some(plan), plan.kind)
  {
  }

  lemma QuitReadsBack(p: Pending, said: seq<Line>, w: Winner, due: bool, exit: Exit, line: Line)
    requires Underway(ParseAll(p, said), w, due)
    requires Marked(ParseLine(ParseAll(p, said), line), exit, None, w)
    requires exit !in {ExitHold, ExitArming, ExitCooldown, ExitCompoundOnly, ExitError}
    ensures ReadsBack(p, Report(exit, said + [line], None, true, None), w)
  {
    ParseOne(p, said, line);
    MarkedShows(ParseAll(p, said + [line]), exit, said + [line], None, None, w);
  }

  lemma ThrowReadsBack(p: Pending, said: seq<Line>, w: Winner, due: bool, gated: bool)
    requires Underway(ParseAll(p, said), w, due)
    ensures ReadsBack(p, Report(ExitError, said + [Failure], None, gated, None), w)
  {
    ParseOne(p, said, Failure);
    FailureShows(ParseAll(p, said), said + [Failure], gated, None, w);
  }

  lemma UnlandedReadsBack(p: Pending, plan: Plan, said: seq<Line>, mined: Option<int>)
    requires Planned(ParseAll(p, said), plan)
    ensures ReadsBack(p, Report(ExitError, said + [Failure], Some(plan), true, mined), plan.kind)
  {
    ParseOne(p, said, Failure);
    FailureShows(ParseAll(p, said), said + [Failure], true, mined, plan.kind);
  }

  lemma LandedReadsBack(p: Pending, plan: Plan, said: seq<Line>, mined: Option<int>)
    requires Planned(ParseAll(p, said), plan)
    ensures ReadsBack(p, Report(ExitLanded, said + [LandedLine(plan.kind)], Some(plan), true, mined), plan.kind)
  {
    var lines := said + [LandedLine(plan.kind)];
    LandedMarks(ParseAll(p, said), plan);
    ParseOne(p, said, LandedLine(plan.kind));
    MarkedShows(ParseAll(p, lines), ExitLanded, lines, Some(plan), mined, plan.kind);
  }

  lemma SubmitReadsBack(p: Pending, s: KeeperState, i: Inputs, plan: Plan, said: seq<Line>)
    requires Planned(ParseAll(p, said), plan)
    ensures ReadsBack(p, Submit(s, i, plan, said).report, plan.kind)
  {
    match i.submission
    case NotMined => UnlandedReadsBack(p, plan, said, None);
    case MinedUnseen(ts) => UnlandedReadsBack(p, plan, said, Some(ts));
    case Confirmed(ts) => LandedReadsBack(p, plan, said, Some(ts));
  }

  lemma AimedReadsBack(p: Pending, cfg: Config, s: KeeperState, i: Inputs, plan: Plan, said: seq<Line>, due: bool)
    requires Underway(ParseAll(p, said), plan.kind, due)
    ensures ReadsBack(p, Report(ExitDryRun, said + [PlanLine(plan)] + [DryRunLine], Some(plan), true, None), plan.kind)
    ensures var told := said + [PlanLine(plan)] + [PreflightRevertLine];
      ReadsBack(p, Report(ExitPreflightRevert, told, Some(plan), true, None), plan.kind)
    ensures ReadsBack(p, Submit(s, i, plan, said + [PlanLine(plan)] + [Submitting]).report, plan.kind)
  {
    var told := said + [PlanLine(plan)];
    ParseOne(p, said, PlanLine(plan));
    PlanLines(ParseAll(p, said), plan, due);
    var q := ParseAll(p, told);
    DryRunMarks(q, plan);
    PreflightMarks(q, plan);
    SubmittingKeeps(q, plan);
    ParseOne(p, told, DryRunLine);
    ParseOne(p, told, PreflightRevertLine);
    ParseOne(p, told, Submitting);
    MarkedShows(ParseAll(p, told + [DryRunLine]), ExitDryRun, told + [DryRunLine], Some(plan), None, plan.kind);
    var refused := told + [PreflightRevertLine];
    MarkedShows(ParseAll(p, refused), ExitPreflightRevert, refused, Some(plan), None, plan.kind);
    SubmitReadsBack(p, s, i, plan, told + [Submitting]);
  }

  lemma PlaceReadsBack(p: Pending, cfg: Config, s: KeeperState, i: Inputs, at: Position, w: Winner,
                       caps: Option<ProxyCaps>, tick: int, mult: int, said: seq<Line>, due: bool)
    requires cfg.spacing > 0
    requires Underway(ParseAll(p, said), w, due)
    ensures ReadsBack(p, Place(cfg, s, i, at, w, caps, tick, mult, said).report, w)
  {
    var aim := PlanBase(cfg, w, at.base, caps, tick, mult);
    if aim.Unworkable? {
      TranslationMarks(ParseAll(p, said), w, due);
      QuitReadsBack(p, said, w, due, ExitClampUnworkable, SkipTranslation);
    } else {
      var told := said + if aim.clamped then [ClampWalk] else [];
      PassingAfter(p, said, if aim.clamped then [ClampWalk] else [], w, due);
      if aim.TooWide? {
        WidthMarks(ParseAll(p, told), w, due);
        QuitReadsBack(p, told, w, due, ExitWidthCap, SkipWidth);
      } else if !i.amountsReadable {
        ThrowReadsBack(p, told, w, due, true);
      } else {
        AimedReadsBack(p, cfg, s, i,
          Plan(w, aim.band, LimitRange(at.spot, cfg.spacing, i.side, cfg.limitWidthMult), i.side), told, due);
      }
    }
  }

  lemma CompoundOnlyShows(q: Pending, lines: seq<Line>, w: Winner)
    requires Underway(q, w, true)
    ensures Shows(q, Report(ExitCompoundOnly, lines, None, true, None), w)
  {
  }

  lemma SweepReadsBack(p: Pending, cfg: Config, s: KeeperState, i: Inputs, at: Position, w: Winner,
                       caps: Option<ProxyCaps>, armed: bool, gate: Gate, regime: Regime, mult: int,
                       said: seq<Line>, due: bool)
    requires cfg.spacing > 0 && (armed || due)
    requires Underway(ParseAll(p, said), w, due)
    ensures ReadsBack(p, AfterSweep(cfg, s, i, at, w, caps, armed, gate, regime, mult, said).report, w)
  {
    var q := ParseAll(p, said);
    if !armed {
      CompoundOnlyShows(q, said, w);
    } else if regime == Extreme {
      ExtremeLines(q, w, due);
      ParseOne(p, said, SkipExtreme);
      ParseOne(p, said + [SkipExtreme], Noise);
      assert said + [SkipExtreme, Noise] == said + [SkipExtreme] + [Noise];
      var told := said + [SkipExtreme, Noise];
      MarkedShows(ParseAll(p, told), ExitRegimeExtreme, told, None, None, w);
    } else if gate.failed.Some? {
      GateMarks(q, w, due, gate.failed.value);
      QuitReadsBack(p, said, w, due, ExitGateBlocked, SkipGate(gate.failed.value));
    } else if i.belowGasFloor.None? {
      ThrowReadsBack(p, said, w, due, true);
    } else if i.belowGasFloor.value {
      GasMarks(q, w, due);
      QuitReadsBack(p, said, w, due, ExitGasFloor, SkipGas);
    } else {
      var tick := if gate.twapTick.Some? then gate.twapTick.value else at.spot;
      PlaceReadsBack(p, cfg, s, i, at, w, caps, tick, mult, said, due);
    }
  }

  lemma RegimeReadsBack(p: Pending, cfg: Config, s: KeeperState, i: Inputs, at: Position, w: Winner,
                        caps: Option<ProxyCaps>, armed: bool, due: bool, gate: Gate, regime: Regime, mult: int,
                        said: seq<Line>)
    requires cfg.spacing > 0 && (armed || due)
    requires Underway(ParseAll(p, said), w, due)
    ensures ReadsBack(p, AfterRegime(cfg, s, i, at, w, caps, armed, due, gate, regime, mult, said).report, w)
  {
    var r := StepSweep(s, i, due, gate, regime, said);
    SweepPasses(p, s, i, due, gate, regime, said, w);
    if r.threw {
      ThrowReadsBack(p, r.lines, w, due, true);
    } else {
      SweepReadsBack(p, cfg, r.state, i, at, w, caps, armed, gate, regime, mult, r.lines, due);
    }
  }

  lemma SweepPasses(p: Pending, s: KeeperState, i: Inputs, due: bool, gate: Gate, regime: Regime, said: seq<Line>,
                    w: Winner)
    requires Underway(ParseAll(p, said), w, due)
    ensures Underway(ParseAll(p, StepSweep(s, i, due, gate, regime, said).lines), w, due)
  {
    PassingAfter(p, said, SweepLines(i.sweep), w, due);
    if CompoundRefusal(gate, regime).Some? {
      PassingAfter(p, said, [CompoundSkipped(CompoundRefusal(gate, regime).value)], w, due);
    }
  }

  lemma GatesReadBack(p: Pending, cfg: Config, s: KeeperState, i: Inputs, at: Position, w: Winner,
                      caps: Option<ProxyCaps>, armed: bool, due: bool, said: seq<Line>)
    requires cfg.spacing > 0 && (armed || due)
    requires Underway(ParseAll(p, said), w, due)
    ensures ReadsBack(p, AfterCooldown(cfg, s, i, at, w, caps, armed, due, said).report, w)
  {
    var gate := CheckPrice(cfg, i, at.spot);
    GateLinesPass(cfg, i, at.spot);
    PassingAfter(p, said, gate.lines, w, due);
    if cfg.regimeEnabled {
      var r := EvaluateRegime(cfg, s, i, gate);
      PassingAfter(p, said + gate.lines, r.lines, w, due);
      RegimeReadsBack(p, cfg, r.state, i, at, w, caps, armed, due, gate, r.decision.regime,
        BandMultForRegime(r.decision.regime, cfg.baseHalfWidthMult, cfg.elevatedHalfWidthMult),
        said + gate.lines + r.lines);
    } else if !gate.feedHealthy {
      NoRegimeFeedMarks(ParseAll(p, said + gate.lines), w, due);
      QuitReadsBack(p, said + gate.lines, w, due, ExitNoRegimeFeed, NoRegimeFeed);
    } else {
      RegimeReadsBack(p, cfg, s, i, at, w, caps, armed, due, gate, Calm, cfg.baseHalfWidthMult, said + gate.lines);
    }
  }

  lemma GateLinesPass(cfg: Config, i: Inputs, spot: int)
    ensures forall k :: 0 <= k < |CheckPrice(cfg, i, spot).lines| ==> Passing(CheckPrice(cfg, i, spot).lines[k])
  {
  }

  // --- up to the cooldown ------------------------------------------------------------------------

  /** The evaluation went home on a dwell or cooldown line that printed a negative number: its clock
      was behind the moment it counts from. Checkable before the evaluation, from its inputs. */
  predicate ClockBehind(cfg: Config, s: KeeperState, i: Inputs)
  {
    && i.position.Some?
    && var d := Triggers(cfg, i.position.value);
    && d.Decided? && d.winner != Hold
    && !CompoundDue(cfg, s, i.now)
    && Behind(cfg, StepDwells(s, d.winner, i.now), i, d.winner)
  }

  predicate Behind(cfg: Config, s: KeeperState, i: Inputs, w: Winner)
  {
    var caps := if cfg.proxied then i.caps else None;
    if !DwellMet(cfg, s, w, i.now) then i.now < Clock(s, w)
    else (cfg.proxied ==> i.caps.Some?) && CoolingDown(cfg, s, caps, i.now) && i.now < LastRebalance(s, caps)
  }

  lemma WaitingShows(q: Pending, exit: Exit, lines: seq<Line>, w: Winner)
    requires Underway(q, w, false) && q.gateFail.None? && !q.pastCooldown && q.twap.None? && q.oracle.None?
    requires exit == if q.cooldownSkipped then ExitCooldown
                     else if q.armingTrigger || q.armingRefresh || q.armingFold then ExitArming else ExitHold
    ensures Shows(q, Report(exit, lines, None, Armed(q) && !q.cooldownSkipped, None), w)
  {
  }

  /** A record that only has the summary line and one waiting line to go on. */
  lemma ArmingReadsBack(q: Pending, w: Winner, held: int, required: int)
    requires Underway(q, w, false) && q.gateFail.None? && !q.pastCooldown && q.twap.None? && q.oracle.None?
    requires !q.armingTrigger && !q.armingRefresh && !q.armingFold && !q.cooldownSkipped
    requires w != Hold && held < required
    ensures var q' := ParseLine(q, Arming(w, held, required));
      && Shows(q', Report(if held < 0 then ExitHold else ExitArming, [], None, held < 0, None), w)
  {
    WaitingShows(ParseLine(q, Arming(w, held, required)), if held < 0 then ExitHold else ExitArming, [], w);
  }

  lemma CooldownReadsBack(q: Pending, w: Winner, elapsed: int, required: int)
    requires Underway(q, w, false) && q.gateFail.None? && !q.pastCooldown && q.twap.None? && q.oracle.None?
    requires !q.armingTrigger && !q.armingRefresh && !q.armingFold && !q.cooldownSkipped
    requires w != Hold && elapsed < required
    ensures var q' := ParseLine(q, MinInterval(elapsed, required));
      && Shows(q', Report(if elapsed < 0 then ExitHold else ExitCooldown, [], None, elapsed < 0, None), w)
  {
    WaitingShows(ParseLine(q, MinInterval(elapsed, required)), if elapsed < 0 then ExitHold else ExitCooldown, [], w);
  }

  lemma MinIntervalKeeps(q: Pending, w: Winner, due: bool, a: int, b: int)
    requires Underway(q, w, due)
    ensures Underway(ParseLine(q, MinInterval(a, b)), w, due)
  {
  }

  lemma ArmingKeeps(q: Pending, w: Winner, due: bool, a: int, b: int)
    requires Underway(q, w, due)
    ensures Underway(ParseLine(q, Arming(w, a, b)), w, due)
  {
    match w
    case Recenter =>
    case Refresh =>
    case Fold =>
    case Hold =>
  }

  /** What the record says, against what was done: right, except that a misprinted wait reads as a
      hold whose gates passed. */
  predicate Tells(q: Pending, report: Report, w: Winner, misprint: bool)
  {
    Shows(q, if misprint then report.(exit := ExitHold, gated := true) else report, w)
  }

  /** Only a summary line has been read. */
  predicate StartsWith(said: seq<Line>, w: Winner, due: bool)
  {
    var q := ParseAll(UNREAD, said);
    && Underway(q, w, due) && q.gateFail.None? && !q.pastCooldown && q.twap.None? && q.oracle.None?
    && !q.armingTrigger && !q.armingRefresh && !q.armingFold && !q.cooldownSkipped
  }

  /** The lines up to the cooldown, read back: a wait shows as itself unless its number is negative,
      and either way nothing terminal has been read. */
  lemma WaitReadsBack(cfg: Config, s: KeeperState, i: Inputs, w: Winner, due: bool, said: seq<Line>)
    requires StartsWith(said, w, due)
    ensures var r := StepCooldown(cfg, s, i, w, said + ArmingLines(cfg, s, w, i.now));
      r.Ready? ==>
        && Underway(ParseAll(UNREAD, r.lines), w, due)
        && (!r.armed && !due ==>
              Tells(ParseAll(UNREAD, r.lines), Report(r.wait, r.lines, None, false, None), w,
                    w != Hold && Behind(cfg, s, i, w)))
        && (!r.armed && w != Hold ==> r.wait in {ExitArming, ExitCooldown})
        && (r.armed ==> !Behind(cfg, s, i, w))
    ensures var r := StepCooldown(cfg, s, i, w, said + ArmingLines(cfg, s, w, i.now));
      r.CapsThrew? ==> !Behind(cfg, s, i, w) && ArmingLines(cfg, s, w, i.now) == []
  {
    var q := ParseAll(UNREAD, said);
    var caps := if cfg.proxied then i.caps else None;
    if w == Hold {
      assert said + ArmingLines(cfg, s, w, i.now) == said;
      if !due { WaitingShows(q, ExitHold, said, w); }
    } else if !DwellMet(cfg, s, w, i.now) {
      var held := i.now - Clock(s, w);
      ParseOne(UNREAD, said, Arming(w, held, cfg.dwellSecs));
      ArmingKeeps(q, w, due, held, cfg.dwellSecs);
      if !due { ArmingReadsBack(q, w, held, cfg.dwellSecs); }
    } else {
      assert said + ArmingLines(cfg, s, w, i.now) == said;
      if (cfg.proxied ==> i.caps.Some?) && CoolingDown(cfg, s, caps, i.now) {
        var elapsed := i.now - LastRebalance(s, caps);
        ParseOne(UNREAD, said, MinInterval(elapsed, MinIntervalSecs(cfg, caps)));
        MinIntervalKeeps(q, w, due, elapsed, MinIntervalSecs(cfg, caps));
        if !due { CooldownReadsBack(q, w, elapsed, MinIntervalSecs(cfg, caps)); }
      }
    }
  }

  lemma DwellReadsBack(cfg: Config, s: KeeperState, i: Inputs, at: Position, w: Winner, due: bool,
                       reason: Decide.Reason)
    requires cfg.spacing > 0
    ensures var said := [Summary(at.spot, at.base, w, due, reason)] + ArmingLines(cfg, s, w, i.now);
      var report := AfterDwell(cfg, s, i, at, w, due, said).report;
      var misprint := w != Hold && !due && Behind(cfg, s, i, w);
      && Tells(ParseAll(UNREAD, report.lines), report, w, misprint)
      && (misprint ==> report.exit in {ExitArming, ExitCooldown})
  {
    var first := Summary(at.spot, at.base, w, due, reason);
    ParseOne(UNREAD, [], first);
    assert [] + [first] == [first];
    WaitReadsBack(cfg, s, i, w, due, [first]);
    var r := StepCooldown(cfg, s, i, w, [first] + ArmingLines(cfg, s, w, i.now));
    if r.CapsThrew? {
      assert [first] + ArmingLines(cfg, s, w, i.now) == [first];
      ThrowReadsBack(UNREAD, [first], w, due, false);
    } else if r.armed || due {
      GatesReadBack(UNREAD, cfg, s, i, at, w, r.caps, r.armed, due, r.lines);
    }
  }

  // --- the round trip ------------------------------------------------------------------------------

  /** A throw before anything was seen leaves one line, and an error record with nothing else in it. */
  lemma EarlyThrowReadsBack()
    ensures var rec := Finalize(ParseAll(UNREAD, [Failure]));
      rec.code == ExitError && rec.winner.None? && rec.plan.None? && rec.tx.None?
  {
    ParseOne(UNREAD, [], Failure);
    assert [] + [Failure] == [Failure];
  }

  /** The record read back from an evaluation's own lines, for every path through it: the code is the
      exit taken, a gate is recorded exactly when the price gates ran, and the trigger, plan and
      transaction are the real ones. It goes wrong exactly when a wait was printed with a negative
      number: then a cycle that was arming or cooling down is recorded as a hold that passed its gates. */
  lemma RecordTellsTheEvaluation(cfg: Config, s: KeeperState, i: Inputs)
    requires cfg.spacing > 0
    ensures var report := Evaluate(cfg, s, i).report;
      var rec := Finalize(ParseAll(UNREAD, report.lines));
      && (rec.code == report.exit <==> !ClockBehind(cfg, s, i))
      && (ClockBehind(cfg, s, i) ==> rec.code == ExitHold && report.exit in {ExitArming, ExitCooldown})
      && (report.exit != ExitError ==> (rec.gate.Some? <==> report.gated || ClockBehind(cfg, s, i)))
      && rec.plan == report.plan
      && (rec.tx.Some? <==> report.exit == ExitLanded)
      && rec.winner == Seen(cfg, i)
      && (rec.tx.Some? ==> rec.tx == rec.winner)
  {
    if Seen(cfg, i).None? {
      EarlyThrowReadsBack();
    } else {
      var at, d := i.position.value, Triggers(cfg, i.position.value);
      DwellReadsBack(cfg, StepDwells(s, d.winner, i.now), i, at, d.winner, CompoundDue(cfg, s, i.now), d.reason);
    }
  }

  // --- what was read ----------------------------------------------------------------------------

  /** More lines, none of them a summary. */
  predicate Extends(said: seq<Line>, lines: seq<Line>)
  {
    |said| <= |lines| && lines[..|said|] == said && forall k :: |said| <= k < |lines| ==> !lines[k].Summary?
  }

  lemma PlaceExtends(cfg: Config, s: KeeperState, i: Inputs, p: Position, w: Winner, caps: Option<ProxyCaps>,
                     tick: int, mult: int, said: seq<Line>)
    requires cfg.spacing > 0
    ensures Extends(said, Place(cfg, s, i, p, w, caps, tick, mult, said).report.lines)
  {
  }

  lemma StillExtends(said: seq<Line>, more: seq<Line>, lines: seq<Line>)
    requires Extends(said, more) && Extends(more, lines)
    ensures Extends(said, lines)
  {
    assert lines[..|said|] == more[..|said|];
  }

  lemma TailExtends(said: seq<Line>, more: seq<Line>)
    requires forall k :: 0 <= k < |more| ==> !more[k].Summary?
    ensures Extends(said, said + more)
  {
  }

  lemma ActExtends(cfg: Config, s: KeeperState, i: Inputs, p: Position, w: Winner, caps: Option<ProxyCaps>,
                   armed: bool, gate: Gate, regime: Regime, mult: int, said: seq<Line>)
    requires cfg.spacing > 0
    ensures Extends(said, AfterSweep(cfg, s, i, p, w, caps, armed, gate, regime, mult, said).report.lines)
  {
    if armed && regime != Extreme && gate.failed.None? && i.belowGasFloor == Some(false) {
      PlaceExtends(cfg, s, i, p, w, caps, if gate.twapTick.Some? then gate.twapTick.value else p.spot, mult, said);
    } else {
      TailExtends(said, [SkipExtreme, Noise]);
      TailExtends(said, [Failure]);
      TailExtends(said, [SkipGas]);
      if gate.failed.Some? { TailExtends(said, [SkipGate(gate.failed.value)]); }
    }
  }

  lemma StepSweepExtends(s: KeeperState, i: Inputs, due: bool, gate: Gate, regime: Regime, said: seq<Line>)
    ensures Extends(said, StepSweep(s, i, due, gate, regime, said).lines)
  {
    TailExtends(said, SweepLines(i.sweep));
    TailExtends(said, []);
    assert said + [] == said;
    if CompoundRefusal(gate, regime).Some? {
      TailExtends(said, [CompoundSkipped(CompoundRefusal(gate, regime).value)]);
    }
  }

  lemma SweepExtends(cfg: Config, s: KeeperState, i: Inputs, p: Position, w: Winner, caps: Option<ProxyCaps>,
                     armed: bool, due: bool, gate: Gate, regime: Regime, mult: int, said: seq<Line>)
    requires cfg.spacing > 0
    ensures Extends(said, AfterRegime(cfg, s, i, p, w, caps, armed, due, gate, regime, mult, said).report.lines)
  {
    var r := StepSweep(s, i, due, gate, regime, said);
    StepSweepExtends(s, i, due, gate, regime, said);
    if r.threw {
      TailExtends(r.lines, [Failure]);
      StillExtends(said, r.lines, r.lines + [Failure]);
    } else {
      ActExtends(cfg, r.state, i, p, w, caps, armed, gate, regime, mult, r.lines);
      StillExtends(said, r.lines,
        AfterSweep(cfg, r.state, i, p, w, caps, armed, gate, regime, mult, r.lines).report.lines);
    }
  }

  lemma JudgedExtends(cfg: Config, s: KeeperState, i: Inputs, spot: int, said: seq<Line>)
    ensures var gate := CheckPrice(cfg, i, spot);
      && Extends(said, said + gate.lines)
      && Extends(said, said + gate.lines + EvaluateRegime(cfg, s, i, gate).lines)
      && Extends(said, said + gate.lines + [NoRegimeFeed])
  {
    var gate := CheckPrice(cfg, i, spot);
    GateLinesPass(cfg, i, spot);
    TailExtends(said, gate.lines);
    TailExtends(said + gate.lines, EvaluateRegime(cfg, s, i, gate).lines);
    TailExtends(said + gate.lines, [NoRegimeFeed]);
    StillExtends(said, said + gate.lines, said + gate.lines + EvaluateRegime(cfg, s, i, gate).lines);
    StillExtends(said, said + gate.lines, said + gate.lines + [NoRegimeFeed]);
  }

  lemma GatesExtend(cfg: Config, s: KeeperState, i: Inputs, p: Position, w: Winner, caps: Option<ProxyCaps>,
                    armed: bool, due: bool, said: seq<Line>)
    requires cfg.spacing > 0
    ensures Extends(said, AfterCooldown(cfg, s, i, p, w, caps, armed, due, said).report.lines)
  {
    var gate := CheckPrice(cfg, i, p.spot);
    var lines := AfterCooldown(cfg, s, i, p, w, caps, armed, due, said).report.lines;
    JudgedExtends(cfg, s, i, p.spot, said);
    if cfg.regimeEnabled {
      var r := EvaluateRegime(cfg, s, i, gate);
      SweepExtends(cfg, r.state, i, p, w, caps, armed, due, gate, r.decision.regime,
        BandMultForRegime(r.decision.regime, cfg.baseHalfWidthMult, cfg.elevatedHalfWidthMult),
        said + gate.lines + r.lines);
      StillExtends(said, said + gate.lines + r.lines, lines);
    } else if gate.feedHealthy {
      SweepExtends(cfg, s, i, p, w, caps, armed, due, gate, Calm, cfg.baseHalfWidthMult, said + gate.lines);
      StillExtends(said, said + gate.lines, lines);
    }
  }

  lemma DwellExtends(cfg: Config, s: KeeperState, i: Inputs, p: Position, w: Winner, due: bool, said: seq<Line>)
    requires cfg.spacing > 0
    ensures Extends(said, AfterDwell(cfg, s, i, p, w, due, said).report.lines)
  {
    var r := StepCooldown(cfg, s, i, w, said);
    var lines := AfterDwell(cfg, s, i, p, w, due, said).report.lines;
    TailExtends(said, [Failure]);
    if r.Ready? {
      if r.lines != said { TailExtends(said, [r.lines[|said|]]); }
      if r.armed || due {
        GatesExtend(cfg, s, i, p, w, r.caps, r.armed, due, r.lines);
        StillExtends(said, r.lines, lines);
      }
    }
  }

  predicate SameReads(p: Pending, q: Pending)
  {
    p.seen == q.seen && p.compoundDue == q.compoundDue
  }

  lemma NumbersKeepReads(p: Pending, r: GateReason)
    ensures SameReads(WithGateNumbers(p, r), p)
  {
  }

  lemma SkipKeepsReads(p: Pending, why: SkipReason)
    ensures SameReads(ParseBody(p, CompoundSkipped(why)), p)
  {
    match why
    case GateSkip(r) =>
      NumbersKeepReads(p.(pastCooldown := true, gateFail := Some(GateFail(FailedAtFor(r), ViaCompound)),
                          compound := Some(Compound(false, false, false))), r);
    case RegimeSkip(_) =>
    case OtherSkip =>
  }

  lemma GateSkipKeepsReads(p: Pending, r: GateReason)
    ensures SameReads(ParseBody(p, SkipGate(r)), p)
  {
    NumbersKeepReads(Mark(p, ExitGateBlocked).(gateFail := Some(GateFail(FailedAtFor(r), ViaSkip))), r);
  }

  lemma ArmingKeepsReads(p: Pending, leg: Winner, held: int, required: int)
    ensures SameReads(ParseBody(p, Arming(leg, held, required)), p)
  {
  }

  lemma IntervalKeepsReads(p: Pending, elapsed: int, required: int)
    ensures SameReads(ParseBody(p, MinInterval(elapsed, required)), p)
  {
  }

  lemma BodyKeepsReads(p: Pending, line: Line)
    requires !line.Summary? && !line.CompoundSkipped? && !line.SkipGate? && !line.Arming? && !line.MinInterval?
    ensures SameReads(ParseBody(p, line), p)
  {
  }

  lemma LineKeepsReads(p: Pending, line: Line)
    requires !line.Summary?
    ensures SameReads(ParseLine(p, line), p)
  {
    if line.CompoundSkipped? { SkipKeepsReads(p, line.why); }
    else if line.SkipGate? { GateSkipKeepsReads(p, line.gate); }
    else if line.Arming? { ArmingKeepsReads(p, line.leg, line.heldSecs, line.requiredSecs); }
    else if line.MinInterval? { IntervalKeepsReads(p, line.elapsedSecs, line.requiredSecs); }
    else { BodyKeepsReads(p, line); }
  }

  lemma {:induction false} SummaryIsKept(said: seq<Line>, lines: seq<Line>)
    requires Extends(said, lines)
    ensures SameReads(ParseAll(UNREAD, lines), ParseAll(UNREAD, said))
    decreases |lines|
  {
    if |lines| > |said| {
      SummaryIsKept(said, lines[..|lines| - 1]);
      LineKeepsReads(ParseAll(UNREAD, lines[..|lines| - 1]), lines[|lines| - 1]);
    } else {
      assert lines == said;
    }
  }

  /** Whatever came of it, the record shows the tick and the band the evaluation read, and whether a sweep was
      due: a record without them is of one that threw before it saw a trigger. */
  lemma RecordShowsTheReads(cfg: Config, s: KeeperState, i: Inputs)
    requires cfg.spacing > 0
    ensures var rec := Finalize(ParseAll(UNREAD, Evaluate(cfg, s, i).report.lines));
      if Seen(cfg, i).Some? then
        && rec.seen == Some(Reads(i.position.value.spot, i.position.value.base))
        && (rec.compoundDue <==> CompoundDue(cfg, s, i.now))
      else rec.seen == None && !rec.compoundDue
  {
    if Seen(cfg, i).Some? {
      var p, d := i.position.value, Triggers(cfg, i.position.value);
      var due := CompoundDue(cfg, s, i.now);
      var first := Summary(p.spot, p.base, d.winner, due, d.reason);
      var s1 := StepDwells(s, d.winner, i.now);
      var said := [first] + ArmingLines(cfg, s1, d.winner, i.now);
      DwellExtends(cfg, s1, i, p, d.winner, due, said);
      assert Extends([first], said);
      StillExtends([first], said, Evaluate(cfg, s, i).report.lines);
      SummaryIsKept([first], Evaluate(cfg, s, i).report.lines);
      ParseOne(UNREAD, [], first);
      assert [] + [first] == [first];
    } else {
      ParseOne(UNREAD, [], Failure);
      assert [] + [Failure] == [Failure];
    }
  }

  /** A transaction sent at 998 whose confirmation was lost and which is mined at 1002, in the block after
      the one evaluated at 1000. */
  function StampAhead(): Inputs
  {
    Overlaps.Tick(1000, Overlaps.PLACED, Some(ProxyCaps(1000, 1000, 0, 1002, false)), NotMined)
  }

  function BeforeStamp(): seq<KeeperRuns.Event>
  {
    [KeeperRuns.Block(Overlaps.Tick(990, Overlaps.START, Overlaps.Caps(0), NotMined)),
     KeeperRuns.Block(Overlaps.Tick(998, Overlaps.START, Overlaps.Caps(0), MinedUnseen(1002)))]
  }

  /** The keeper reads a stamp two seconds ahead of its block: it is cooling down, and its record says it
      held. Every setting is one the schema takes, and the state is one the keeper reaches. */
  lemma MisprintExample(floor: nat)
    ensures var cfg := Overlaps.Settings(true, floor);
      var s := KeeperRuns.Run(cfg, 0, BeforeStamp());
      && WellFormed(cfg)
      && Evaluate(cfg, s, StampAhead()).report.exit == ExitCooldown
      && Finalize(ParseAll(UNREAD, Evaluate(cfg, s, StampAhead()).report.lines)).code == ExitHold
  {
    var cfg := Overlaps.Settings(true, floor);
    var s := KeeperRuns.Run(cfg, 0, BeforeStamp());
    ReachesWaiting(floor);
    WaitingIsBehind(floor);
    RecordTellsTheEvaluation(cfg, s, StampAhead());
  }

  lemma ReachesWaiting(floor: nat)
    ensures KeeperRuns.Run(Overlaps.Settings(true, floor), 0, BeforeStamp()) == Overlaps.Waiting()
  {
    var a := Overlaps.Tick(990, Overlaps.START, Overlaps.Caps(0), NotMined);
    var b := Overlaps.Tick(998, Overlaps.START, Overlaps.Caps(0), MinedUnseen(1002));
    Overlaps.FirstSight(true, floor, Overlaps.Caps(0));
    Overlaps.ArmedSends(true, floor, 998, Overlaps.START, Overlaps.Caps(0), MinedUnseen(1002));
    Overlaps.TwoBlocks(Overlaps.Settings(true, floor), a, b);
  }

  lemma WaitingIsBehind(floor: nat)
    ensures ClockBehind(Overlaps.Settings(true, floor), Overlaps.Waiting(), StampAhead())
    ensures Evaluate(Overlaps.Settings(true, floor), Overlaps.Waiting(), StampAhead()).report.exit == ExitCooldown
  {
    Overlaps.SeesDrift(true, floor, Overlaps.PLACED);
    assert StepDwells(Overlaps.Waiting(), Recenter, 1000) == Overlaps.Waiting();
  }

  // --- through the listener's slot -------------------------------------------------------------------

  function Feed(s: Slot, block: nat, lines: seq<Line>, wallTs: int): Slot
  {
    if lines == [] then s
    else LineSlot(Feed(s, block, lines[..|lines| - 1], wallTs), block, lines[|lines| - 1], wallTs)
  }

  lemma {:induction false} FeedIsParse(s: Slot, block: nat, lines: seq<Line>, wallTs: int)
    requires s.pending.Some? && s.pending.value.block == block
    ensures Feed(s, block, lines, wallTs)
         == if lines == [] then s
            else s.(pending := Some(s.pending.value.(touched := true, read := ParseAll(s.pending.value.read, lines))))
  {
    if lines != [] { FeedIsParse(s, block, lines[..|lines| - 1], wallTs); }
  }

  /** One block's lines through the listener: the cycle-start hook, every line, the cycle-end hook.
      Exactly one record comes out, made of those lines alone, and the standing keeps its start while
      the outcome repeats and restarts at this cycle when it does not. */
  lemma CycleBecomesOneRecord(slot: Slot, block: nat, lines: seq<Line>, blockTs: int, wallTs: int)
    requires lines != [] && slot.pending.None?
    ensures var rec := Finalize(ParseAll(UNREAD, lines));
      var end := EndSlot(Feed(OpenSlot(slot, block, blockTs), block, lines, wallTs));
      && end.pending.None?
      && end.records == slot.records + [rec]
      && end.standing.Some? && end.standing.value.key == StandingOf(rec)
      && (if slot.standing.Some? && slot.standing.value.key == StandingOf(rec) then end.standing == slot.standing
          else end.standing.value.sinceTs == blockTs && end.standing.value.seqNo == |slot.records| + 1)
  {
    FeedIsParse(OpenSlot(slot, block, blockTs), block, lines, wallTs);
  }

  /** What a slot holds after taking in one more finished cycle. */
  predicate Finished(before: Slot, after: Slot, c: Cycle)
  {
    && after.records == before.records + [Finalize(c.read)]
    && after.standing.Some? && after.standing.value.key == StandingOf(Finalize(c.read))
  }

  /** A cycle that was heard of is never lost: starting another block's finishes it first, and its end finishes it;
      one of which nothing was heard leaves no record, and starting the same block again starts it over. */
  lemma NothingHeardIsLost(slot: Slot, block: nat, blockTs: int)
    ensures var open := OpenSlot(slot, block, blockTs);
      && open.pending == Some(Cycle(block, blockTs, false, UNREAD))
      && (if slot.pending.Some? && slot.pending.value.touched && slot.pending.value.block != block then
            Finished(slot, open, slot.pending.value)
          else open.records == slot.records && open.standing == slot.standing)
    ensures var end := EndSlot(slot);
      && end.pending.None?
      && (if slot.pending.Some? && slot.pending.value.touched then Finished(slot, end, slot.pending.value)
          else end.records == slot.records && end.standing == slot.standing)
  {
  }

  /** A summary or a failure of a block nobody announced announces it, at the time it is heard; any other line is of
      the cycle in hand, and of none without one. */
  lemma LinesFindTheirCycle(slot: Slot, block: nat, line: Line, wallTs: int)
    ensures var told := LineSlot(slot, block, line, wallTs);
      var announces := (line.Summary? || line.Failure?)
        && (slot.pending.None? || slot.pending.value.block != block);
      && (announces ==>
            told == OpenSlot(slot, block, wallTs)
                      .(pending := Some(Cycle(block, wallTs, true, ParseLine(UNREAD, line)))))
      && (!announces && slot.pending.Some? ==>
            told == slot.(pending := Some(slot.pending.value.(touched := true,
                                                              read := ParseLine(slot.pending.value.read, line)))))
      && (!announces && slot.pending.None? ==> told == slot)
  {
  }

  /** So an evaluation's lines make the same record without the announcement, stamped when its summary was heard. */
  lemma UnannouncedIsTheSame(slot: Slot, block: nat, lines: seq<Line>, wallTs: int)
    requires slot.pending.None? && lines != [] && (lines[0].Summary? || lines[0].Failure?)
    ensures EndSlot(Feed(slot, block, lines, wallTs))
         == EndSlot(Feed(OpenSlot(slot, block, wallTs), block, lines, wallTs))
  {
    FirstLineOpens(slot, block, lines, wallTs);
  }

  lemma {:induction false} FirstLineOpens(slot: Slot, block: nat, lines: seq<Line>, wallTs: int)
    requires slot.pending.None? && lines != [] && (lines[0].Summary? || lines[0].Failure?)
    ensures Feed(slot, block, lines, wallTs) == Feed(OpenSlot(slot, block, wallTs), block, lines, wallTs)
  {
    if |lines| > 1 {
      FirstLineOpens(slot, block, lines[..|lines| - 1], wallTs);
    } else {
      assert lines[..0] == [];
    }
  }
}
