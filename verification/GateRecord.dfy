/** Which gate failure a record shows, against the one the evaluation met. */
module GateRecord {
  import opened Wrappers
  import opened Ticks
  import Decide
  import opened Regime
  import opened Keeper
  import opened StatusLog
  import opened LogRoundTrip
  import KeeperRuns
  import Overlaps

  /** The gate failure one line tells of, if it tells of one. */
  function Tells(line: Line): Option<FailedAt>
  {
    match line
    case CompoundSkipped(GateSkip(r)) => Some(FailedAtFor(r))
    case SkipGate(r) => Some(FailedAtFor(r))
    case NoRegimeFeed => Some(AtOracleUnreadable)
    case _ => None
  }

  /** The last failure told of. */
  function LastTold(lines: seq<Line>): Option<FailedAt>
  {
    if lines == [] then None
    else
      var t := Tells(lines[|lines| - 1]);
      if t.Some? then t else LastTold(lines[..|lines| - 1])
  }

  predicate Untold(lines: seq<Line>)
  {
    forall k :: 0 <= k < |lines| ==> Tells(lines[k]).None?
  }

  lemma {:induction false} UntoldAfter(said: seq<Line>, lines: seq<Line>)
    requires Untold(lines)
    ensures LastTold(said + lines) == LastTold(said)
  {
    if lines == [] {
      assert said + lines == said;
    } else {
      assert (said + lines)[..|said + lines| - 1] == said + lines[..|lines| - 1];
      UntoldAfter(said, lines[..|lines| - 1]);
    }
  }

  lemma OneAfter(said: seq<Line>, line: Line)
    ensures LastTold(said + [line]) == if Tells(line).Some? then Tells(line) else LastTold(said)
  {
    assert (said + [line])[..|said|] == said;
  }

  function FailureOf(p: Pending): Option<FailedAt>
  {
    if p.gateFail.Some? then Some(p.gateFail.value.failedAt) else None
  }

  lemma SkipTells(p: Pending, why: SkipReason)
    ensures FailureOf(ParseBody(p, CompoundSkipped(why))) ==
      if why.GateSkip? then Some(FailedAtFor(why.gate)) else FailureOf(p)
  {
    match why
    case GateSkip(r) =>
      NumbersKeepFailure(p.(pastCooldown := true, gateFail := Some(GateFail(FailedAtFor(r), ViaCompound)),
                            compound := Some(Compound(false, false, false))), r);
    case RegimeSkip(_) =>
    case OtherSkip =>
  }

  lemma GateSkipTells(p: Pending, r: GateReason)
    ensures FailureOf(ParseBody(p, SkipGate(r))) == Some(FailedAtFor(r))
  {
    NumbersKeepFailure(Mark(p, ExitGateBlocked).(gateFail := Some(GateFail(FailedAtFor(r), ViaSkip))), r);
  }

  lemma NumbersKeepFailure(p: Pending, r: GateReason)
    ensures FailureOf(WithGateNumbers(p, r)) == FailureOf(p)
  {
  }

  lemma LineTells(p: Pending, line: Line)
    ensures FailureOf(ParseLine(p, line)) == if Tells(line).Some? then Tells(line) else FailureOf(p)
  {
    match line
    case CompoundSkipped(why) => SkipTells(p, why);
    case SkipGate(r) => GateSkipTells(p, r);
    case _ => OtherLineTells(p, line);
  }

  predicate Marks(line: Line)
  {
    || line.NoRegimeFeed? || line.SkipExtreme? || line.SkipGas? || line.SkipTranslation? || line.SkipWidth?
    || line.PreflightRevertLine? || line.DryRunLine? || line.LandedLine?
  }

  lemma MarkTells(p: Pending, line: Line)
    requires Marks(line)
    ensures FailureOf(ParseBody(p, line)) == if line.NoRegimeFeed? then Some(AtOracleUnreadable) else FailureOf(p)
  {
  }

  predicate Waits(line: Line)
  {
    line.Summary? || line.Failure? || line.Arming? || line.MinInterval?
  }

  lemma WaitTells(p: Pending, line: Line)
    requires Waits(line)
    ensures FailureOf(ParseLine(p, line)) == FailureOf(p)
  {
    if line.Arming? { ArmingTells(p, line.leg, line.heldSecs, line.requiredSecs); }
    else if line.MinInterval? { MinIntervalTells(p, line.elapsedSecs, line.requiredSecs); }
  }

  lemma ArmingTells(p: Pending, leg: Winner, held: int, required: int)
    ensures FailureOf(ParseBody(p, Arming(leg, held, required))) == FailureOf(p)
  {
  }

  lemma MinIntervalTells(p: Pending, elapsed: int, required: int)
    ensures FailureOf(ParseBody(p, MinInterval(elapsed, required))) == FailureOf(p)
  {
  }

  lemma PassTells(p: Pending, line: Line)
    requires !Waits(line) && !Marks(line) && !line.CompoundSkipped? && !line.SkipGate?
    ensures FailureOf(ParseBody(p, line)) == FailureOf(p)
  {
  }

  lemma OtherLineTells(p: Pending, line: Line)
    requires !line.CompoundSkipped? && !line.SkipGate?
    ensures FailureOf(ParseLine(p, line)) == if line.NoRegimeFeed? then Some(AtOracleUnreadable) else FailureOf(p)
  {
    if Waits(line) { WaitTells(p, line); }
    else if Marks(line) { MarkTells(p, line); }
    else { PassTells(p, line); }
  }

  /** The pending cycle carries the last failure told of. */
  lemma {:induction false} ParsedIsLastTold(lines: seq<Line>)
    ensures FailureOf(ParseAll(UNREAD, lines)) == LastTold(lines)
  {
    if lines != [] {
      ParsedIsLastTold(lines[..|lines| - 1]);
      LineTells(ParseAll(UNREAD, lines[..|lines| - 1]), lines[|lines| - 1]);
    }
  }

  // --- stage by stage -------------------------------------------------------------------------

  /** The failure the evaluation really met, in the record's terms. */
  function Met(gate: Gate): Option<FailedAt>
  {
    if gate.failed.Some? then Some(FailedAtFor(gate.failed.value)) else None
  }

  /** A sweep whose own refusal or failure text reads like a gate reason. */
  function Mimics(w: Sweep): Option<FailedAt>
  {
    match w
    case SweepRefused(GateSkip(r)) => Some(FailedAtFor(r))
    case SweepFailed(GateSkip(r)) => Some(FailedAtFor(r))
    case _ => None
  }

  /** What the lines up to the sweep tell of. */
  function ToldBySweep(i: Inputs, due: bool, gate: Gate, regime: Regime): Option<FailedAt>
  {
    if !due then None
    else if gate.failed.Some? then Met(gate)
    else if regime != Calm then None
    else Mimics(i.sweep)
  }

  /** What the whole evaluation tells of: a gate failure stays untold exactly at the regime exit. */
  function ToldInAll(i: Inputs, armed: bool, due: bool, gate: Gate, regime: Regime): Option<FailedAt>
  {
    if armed && regime != Extreme && gate.failed.Some? then Met(gate) else ToldBySweep(i, due, gate, regime)
  }

  lemma SweepLinesTell(w: Sweep)
    ensures LastTold(SweepLines(w)) == Mimics(w)
  {
    match w
    case SweepRefused(r) =>
      InfoThenSkip([CompoundInfo, CompoundInfo], r);
      assert [CompoundInfo, CompoundInfo] + [CompoundSkipped(r)] == SweepLines(w);
    case SweepFailed(r) =>
      InfoThenSkip([CompoundInfo, CompoundInfo, CompoundSubmitted], r);
      assert [CompoundInfo, CompoundInfo, CompoundSubmitted] + [CompoundSkipped(r)] == SweepLines(w);
    case _ => UntoldAlone(SweepLines(w));
  }

  lemma UntoldAlone(lines: seq<Line>)
    requires Untold(lines)
    ensures LastTold(lines) == None
  {
    UntoldAfter([], lines);
    assert [] + lines == lines;
  }

  lemma InfoThenSkip(info: seq<Line>, r: SkipReason)
    requires Untold(info)
    ensures LastTold(info + [CompoundSkipped(r)]) == if r.GateSkip? then Some(FailedAtFor(r.gate)) else None
  {
    OneAfter(info, CompoundSkipped(r));
    UntoldAlone(info);
  }

  lemma {:induction false} ToldAfter(said: seq<Line>, lines: seq<Line>)
    ensures LastTold(said + lines) == if LastTold(lines).Some? then LastTold(lines) else LastTold(said)
  {
    if lines == [] {
      assert said + lines == said;
    } else {
      assert (said + lines)[..|said + lines| - 1] == said + lines[..|lines| - 1];
      ToldAfter(said, lines[..|lines| - 1]);
    }
  }

  lemma SweepTells(s: KeeperState, i: Inputs, due: bool, gate: Gate, regime: Regime, said: seq<Line>)
    requires LastTold(said).None?
    ensures LastTold(StepSweep(s, i, due, gate, regime, said).lines) == ToldBySweep(i, due, gate, regime)
  {
    SweepLinesTell(i.sweep);
    ToldAfter(said, SweepLines(i.sweep));
    if gate.failed.Some? { OneAfter(said, CompoundSkipped(GateSkip(gate.failed.value))); }
    OneAfter(said, CompoundSkipped(RegimeSkip(regime)));
  }

  lemma SubmitTells(s: KeeperState, i: Inputs, plan: Plan, said: seq<Line>)
    ensures LastTold(Submit(s, i, plan, said).report.lines) == LastTold(said)
  {
    OneAfter(said, Failure);
    OneAfter(said, LandedLine(plan.kind));
  }

  lemma PlanTells(said: seq<Line>, plan: Plan)
    ensures LastTold(said + [PlanLine(plan)]) == LastTold(said)
    ensures LastTold(said + [PlanLine(plan)] + [DryRunLine]) == LastTold(said)
    ensures LastTold(said + [PlanLine(plan)] + [PreflightRevertLine]) == LastTold(said)
    ensures LastTold(said + [PlanLine(plan)] + [Submitting]) == LastTold(said)
  {
    OneAfter(said, PlanLine(plan));
    OneAfter(said + [PlanLine(plan)], DryRunLine);
    OneAfter(said + [PlanLine(plan)], PreflightRevertLine);
    OneAfter(said + [PlanLine(plan)], Submitting);
  }

  lemma WalkTells(said: seq<Line>, clamped: bool)
    ensures var more := if clamped then [ClampWalk] else [];
      LastTold(said + more) == LastTold(said) && LastTold(said + more + [SkipWidth]) == LastTold(said)
      && LastTold(said + more + [Failure]) == LastTold(said)
  {
    var more := if clamped then [ClampWalk] else [];
    UntoldAfter(said, more);
    OneAfter(said + more, SkipWidth);
    OneAfter(said + more, Failure);
  }

  lemma PlaceTells(cfg: Config, s: KeeperState, i: Inputs, p: Position, w: Winner, caps: Option<ProxyCaps>,
                   tick: int, mult: int, said: seq<Line>)
    requires cfg.spacing > 0
    ensures LastTold(Place(cfg, s, i, p, w, caps, tick, mult, said).report.lines) == LastTold(said)
  {
    match PlanBase(cfg, w, p.base, caps, tick, mult)
    case Unworkable => OneAfter(said, SkipTranslation);
    case TooWide(clamped) => WalkTells(said, clamped);
    case BaseAt(band, clamped) =>
      WalkTells(said, clamped);
      var more := said + if clamped then [ClampWalk] else [];
      var plan := Plan(w, band, LimitRange(p.spot, cfg.spacing, i.side, cfg.limitWidthMult), i.side);
      PlanTells(more, plan);
      SubmitTells(s, i, plan, more + [PlanLine(plan)] + [Submitting]);
  }

  lemma AllowedTells(cfg: Config, s: KeeperState, i: Inputs, p: Position, w: Winner, caps: Option<ProxyCaps>,
                     gate: Gate, regime: Regime, mult: int, said: seq<Line>)
    requires cfg.spacing > 0 && regime != Extreme && gate.failed.None?
    ensures LastTold(AfterSweep(cfg, s, i, p, w, caps, true, gate, regime, mult, said).report.lines) == LastTold(said)
  {
    OneAfter(said, Failure);
    OneAfter(said, SkipGas);
    PlaceTells(cfg, s, i, p, w, caps, if gate.twapTick.Some? then gate.twapTick.value else p.spot, mult, said);
  }

  lemma RefusedTells(cfg: Config, s: KeeperState, i: Inputs, p: Position, w: Winner, caps: Option<ProxyCaps>,
                     armed: bool, gate: Gate, regime: Regime, mult: int, said: seq<Line>)
    requires cfg.spacing > 0 && (!armed || regime == Extreme || gate.failed.Some?)
    ensures LastTold(AfterSweep(cfg, s, i, p, w, caps, armed, gate, regime, mult, said).report.lines)
         == if armed && regime != Extreme then Met(gate) else LastTold(said)
  {
    UntoldAfter(said, [SkipExtreme, Noise]);
    if gate.failed.Some? { OneAfter(said, SkipGate(gate.failed.value)); }
  }

  lemma ActTells(cfg: Config, s: KeeperState, i: Inputs, p: Position, w: Winner, caps: Option<ProxyCaps>,
                 armed: bool, gate: Gate, regime: Regime, mult: int, said: seq<Line>)
    requires cfg.spacing > 0
    ensures LastTold(AfterSweep(cfg, s, i, p, w, caps, armed, gate, regime, mult, said).report.lines)
         == if armed && regime != Extreme && gate.failed.Some? then Met(gate) else LastTold(said)
  {
    if armed && regime != Extreme && gate.failed.None? {
      AllowedTells(cfg, s, i, p, w, caps, gate, regime, mult, said);
    } else {
      RefusedTells(cfg, s, i, p, w, caps, armed, gate, regime, mult, said);
    }
  }

  lemma SweepThenActTells(cfg: Config, s: KeeperState, i: Inputs, p: Position, w: Winner, caps: Option<ProxyCaps>,
                          armed: bool, due: bool, gate: Gate, regime: Regime, mult: int, said: seq<Line>)
    requires cfg.spacing > 0 && LastTold(said).None?
    ensures var r := AfterRegime(cfg, s, i, p, w, caps, armed, due, gate, regime, mult, said).report;
      LastTold(r.lines) == ToldInAll(i, armed, due, gate, regime)
  {
    var r := StepSweep(s, i, due, gate, regime, said);
    SweepTells(s, i, due, gate, regime, said);
    if r.threw { OneAfter(r.lines, Failure); }
    else { ActTells(cfg, r.state, i, p, w, caps, armed, gate, regime, mult, r.lines); }
  }

  // --- the evaluation -------------------------------------------------------------------------

  /** The regime the evaluation acted under. */
  function RegimeMet(cfg: Config, s: KeeperState, i: Inputs, gate: Gate): Regime
  {
    if cfg.regimeEnabled then EvaluateRegime(cfg, s, i, gate).decision.regime else Calm
  }

  lemma GatePrints(cfg: Config, i: Inputs, spot: int)
    ensures Untold(CheckPrice(cfg, i, spot).lines)
    ensures !CheckPrice(cfg, i, spot).feedHealthy <==> CheckPrice(cfg, i, spot).failed == Some(OracleUnreadable)
  {
  }

  lemma RegimePrints(cfg: Config, s: KeeperState, i: Inputs, gate: Gate)
    ensures Untold(EvaluateRegime(cfg, s, i, gate).lines)
  {
  }

  /** The sweep and the act, from lines that tell of nothing yet. */
  lemma RegimeTells(cfg: Config, s: KeeperState, i: Inputs, p: Position, w: Winner, caps: Option<ProxyCaps>,
                    armed: bool, due: bool, gate: Gate, regime: Regime, mult: int, said: seq<Line>)
    requires cfg.spacing > 0 && LastTold(said).None?
    ensures var r := AfterRegime(cfg, s, i, p, w, caps, armed, due, gate, regime, mult, said).report;
      r.exit != ExitNoRegimeFeed && LastTold(r.lines) == ToldInAll(i, armed, due, gate, regime)
  {
    SweepThenActTells(cfg, s, i, p, w, caps, armed, due, gate, regime, mult, said);
    AfterRegimeExits(cfg, s, i, p, w, caps, armed, due, gate, regime, mult, said);
  }

  lemma LinesBefore(cfg: Config, s: KeeperState, i: Inputs, spot: int, said: seq<Line>)
    requires LastTold(said).None?
    ensures var gate := CheckPrice(cfg, i, spot);
      && LastTold(said + gate.lines).None?
      && LastTold(said + gate.lines + EvaluateRegime(cfg, s, i, gate).lines).None?
      && LastTold(said + gate.lines + [NoRegimeFeed]) == Some(AtOracleUnreadable)
      && (!gate.feedHealthy ==> Met(gate) == Some(AtOracleUnreadable))
  {
    var gate := CheckPrice(cfg, i, spot);
    GatePrints(cfg, i, spot);
    UntoldAfter(said, gate.lines);
    RegimePrints(cfg, s, i, gate);
    UntoldAfter(said + gate.lines, EvaluateRegime(cfg, s, i, gate).lines);
    OneAfter(said + gate.lines, NoRegimeFeed);
  }

  lemma CooldownTells(cfg: Config, s: KeeperState, i: Inputs, p: Position, w: Winner, caps: Option<ProxyCaps>,
                      armed: bool, due: bool, said: seq<Line>)
    requires cfg.spacing > 0 && LastTold(said).None?
    ensures var gate := CheckPrice(cfg, i, p.spot);
      var r := AfterCooldown(cfg, s, i, p, w, caps, armed, due, said).report;
      LastTold(r.lines)
        == if r.exit == ExitNoRegimeFeed then Met(gate)
           else ToldInAll(i, armed, due, gate, RegimeMet(cfg, s, i, gate))
  {
    var gate := CheckPrice(cfg, i, p.spot);
    LinesBefore(cfg, s, i, p.spot, said);
    if cfg.regimeEnabled {
      var r := EvaluateRegime(cfg, s, i, gate);
      RegimeTells(cfg, r.state, i, p, w, caps, armed, due, gate, r.decision.regime,
        BandMultForRegime(r.decision.regime, cfg.baseHalfWidthMult, cfg.elevatedHalfWidthMult),
        said + gate.lines + r.lines);
    } else if gate.feedHealthy {
      RegimeTells(cfg, s, i, p, w, caps, armed, due, gate, Calm, cfg.baseHalfWidthMult, said + gate.lines);
    }
  }

  lemma AfterRegimeExits(cfg: Config, s: KeeperState, i: Inputs, p: Position, w: Winner, caps: Option<ProxyCaps>,
                         armed: bool, due: bool, gate: Gate, regime: Regime, mult: int, said: seq<Line>)
    requires cfg.spacing > 0
    ensures AfterRegime(cfg, s, i, p, w, caps, armed, due, gate, regime, mult, said).report.exit != ExitNoRegimeFeed
  {
  }

  /** When the told failure is not the met one: a failed gate that only the regime exit followed, or a sweep
      let through whose own text names a gate reason. */
  predicate Misread(i: Inputs, due: bool, gate: Gate, regime: Regime)
  {
    || (gate.failed.Some? && !due && regime == Extreme)
    || (gate.failed.None? && due && regime == Calm && Mimics(i.sweep).Some?)
  }

  lemma ToldExactly(i: Inputs, armed: bool, due: bool, gate: Gate, regime: Regime)
    requires armed || due
    ensures ToldInAll(i, armed, due, gate, regime) == Met(gate) <==> !Misread(i, due, gate, regime)
  {
  }

  lemma WaitLinesTell(cfg: Config, s: KeeperState, i: Inputs, w: Winner, first: Line)
    requires Tells(first).None?
    ensures var r := StepCooldown(cfg, s, i, w, [first] + ArmingLines(cfg, s, w, i.now));
      r.Ready? ==> LastTold(r.lines).None?
  {
    var said := [first] + ArmingLines(cfg, s, w, i.now);
    UntoldAlone(said);
    var caps := if cfg.proxied then i.caps else None;
    OneAfter(said, MinInterval(i.now - LastRebalance(s, caps), MinIntervalSecs(cfg, caps)));
  }

  lemma CooldownReads(cfg: Config, s: KeeperState, i: Inputs, p: Position, w: Winner, caps: Option<ProxyCaps>,
                      armed: bool, due: bool, said: seq<Line>)
    requires cfg.spacing > 0 && LastTold(said).None? && (armed || due)
    ensures var gate := CheckPrice(cfg, i, p.spot);
      var r := AfterCooldown(cfg, s, i, p, w, caps, armed, due, said).report;
      LastTold(r.lines) == Met(gate) <==> !Misread(i, due, gate, RegimeMet(cfg, s, i, gate))
  {
    var gate := CheckPrice(cfg, i, p.spot);
    CooldownTells(cfg, s, i, p, w, caps, armed, due, said);
    ToldExactly(i, armed, due, gate, RegimeMet(cfg, s, i, gate));
    FeedExit(cfg, s, i, p, w, caps, armed, due, said);
  }

  /** The regime-off refusal comes of an unreadable feed alone. */
  lemma FeedExit(cfg: Config, s: KeeperState, i: Inputs, p: Position, w: Winner, caps: Option<ProxyCaps>,
                 armed: bool, due: bool, said: seq<Line>)
    requires cfg.spacing > 0
    ensures AfterCooldown(cfg, s, i, p, w, caps, armed, due, said).report.exit == ExitNoRegimeFeed ==>
      !cfg.regimeEnabled && CheckPrice(cfg, i, p.spot).failed.Some?
  {
    var gate := CheckPrice(cfg, i, p.spot);
    GatePrints(cfg, i, p.spot);
    if cfg.regimeEnabled {
      var r := EvaluateRegime(cfg, s, i, gate);
      AfterRegimeExits(cfg, r.state, i, p, w, caps, armed, due, gate, r.decision.regime,
        BandMultForRegime(r.decision.regime, cfg.baseHalfWidthMult, cfg.elevatedHalfWidthMult),
        said + gate.lines + r.lines);
    } else {
      AfterRegimeExits(cfg, s, i, p, w, caps, armed, due, gate, Calm, cfg.baseHalfWidthMult, said + gate.lines);
    }
  }

  lemma DwellReads(cfg: Config, s: KeeperState, i: Inputs, p: Position, w: Winner, due: bool, reason: Decide.Reason)
    requires cfg.spacing > 0
    ensures var said := [Summary(p.spot, p.base, w, due, reason)] + ArmingLines(cfg, s, w, i.now);
      var r := AfterDwell(cfg, s, i, p, w, due, said).report;
      var gate := CheckPrice(cfg, i, p.spot);
      r.gated ==>
        (LastTold(r.lines) == Met(gate) <==> !Misread(i, due, gate, RegimeMet(cfg, s, i, gate)))
  {
    var first := Summary(p.spot, p.base, w, due, reason);
    var r := StepCooldown(cfg, s, i, w, [first] + ArmingLines(cfg, s, w, i.now));
    WaitLinesTell(cfg, s, i, w, first);
    if r.Ready? && (r.armed || due) { CooldownReads(cfg, s, i, p, w, r.caps, r.armed, due, r.lines); }
  }

  /** The failed gate a record names, if it names one. */
  function NamedFailure(rec: CycleRecord): Option<FailedAt>
  {
    if rec.gate.Some? then rec.gate.value.failedAt else None
  }

  lemma NamedIsLastTold(lines: seq<Line>)
    ensures NamedFailure(Finalize(ParseAll(UNREAD, lines))) == LastTold(lines)
  {
    ParsedIsLastTold(lines);
  }

  function GateMet(cfg: Config, i: Inputs): Gate
    requires i.position.Some?
  {
    CheckPrice(cfg, i, i.position.value.spot)
  }

  predicate GateMisread(cfg: Config, s: KeeperState, i: Inputs)
    requires i.position.Some?
  {
    var gate := GateMet(cfg, i);
    Misread(i, CompoundDue(cfg, s, i.now), gate, RegimeMet(cfg, s, i, gate))
  }

  lemma GatedSawTheVault(cfg: Config, s: KeeperState, i: Inputs)
    requires cfg.spacing > 0 && Evaluate(cfg, s, i).report.gated
    ensures i.position.Some? && Seen(cfg, i).Some?
  {
  }

  /** Where the price gates ran, whether or not anything threw after them, the failure the record names is
      the one the gates met, so the standing and the episodes built on it name the real reason; it is another
      exactly when the regime exit hid a failed gate, or a sweep's own text posed as one. */
  lemma RecordShowsTheGate(cfg: Config, s: KeeperState, i: Inputs)
    requires cfg.spacing > 0 && Evaluate(cfg, s, i).report.gated
    ensures i.position.Some?
    ensures var rec := Finalize(ParseAll(UNREAD, Evaluate(cfg, s, i).report.lines));
      && (NamedFailure(rec) == Met(GateMet(cfg, i)) <==> !GateMisread(cfg, s, i))
      && (rec.gate.Some? ==> (rec.gate.value.ok <==> rec.gate.value.failedAt.None?))
      && (rec.gate.None? ==> rec.code == ExitError)
  {
    GatedSawTheVault(cfg, s, i);
    RecordTellsTheEvaluation(cfg, s, i);
    NamedIsLastTold(Evaluate(cfg, s, i).report.lines);
    var p, d := i.position.value, Triggers(cfg, i.position.value);
    DwellReads(cfg, StepDwells(s, d.winner, i.now), i, p, d.winner, CompoundDue(cfg, s, i.now), d.reason);
    RegimeIgnoresDwell(cfg, s, i, d.winner, GateMet(cfg, i));
  }

  lemma RegimeIgnoresDwell(cfg: Config, s: KeeperState, i: Inputs, w: Winner, gate: Gate)
    ensures RegimeMet(cfg, StepDwells(s, w, i.now), i, gate) == RegimeMet(cfg, s, i, gate)
  {
  }

  function RecordOf(cfg: Config, s: KeeperState, i: Inputs): CycleRecord
    requires cfg.spacing > 0
  {
    Finalize(ParseAll(UNREAD, Evaluate(cfg, s, i).report.lines))
  }

  lemma SweepStageIsGated(cfg: Config, s: KeeperState, i: Inputs, p: Position, w: Winner, caps: Option<ProxyCaps>,
                          armed: bool, due: bool, gate: Gate, regime: Regime, mult: int, said: seq<Line>)
    requires cfg.spacing > 0
    ensures AfterRegime(cfg, s, i, p, w, caps, armed, due, gate, regime, mult, said).report.gated
  {
  }

  lemma PastCooldownIsGated(cfg: Config, s: KeeperState, i: Inputs, p: Position, w: Winner, caps: Option<ProxyCaps>,
                            armed: bool, due: bool, said: seq<Line>)
    requires cfg.spacing > 0
    ensures AfterCooldown(cfg, s, i, p, w, caps, armed, due, said).report.gated
  {
    var gate := CheckPrice(cfg, i, p.spot);
    if cfg.regimeEnabled {
      var r := EvaluateRegime(cfg, s, i, gate);
      SweepStageIsGated(cfg, r.state, i, p, w, caps, armed, due, gate, r.decision.regime,
        BandMultForRegime(r.decision.regime, cfg.baseHalfWidthMult, cfg.elevatedHalfWidthMult),
        said + gate.lines + r.lines);
    } else {
      SweepStageIsGated(cfg, s, i, p, w, caps, armed, due, gate, Calm, cfg.baseHalfWidthMult, said + gate.lines);
    }
  }

  /** The average is in use, long enough and answered; or its absence was waived. */
  predicate AverageRead(cfg: Config, i: Inputs)
  {
    && i.historyAge.Some? && i.historyAge.value >= cfg.minTwapWindowSecs && cfg.twapWindowSecs >= cfg.minTwapWindowSecs
    && i.twapTick.Some?
  }

  predicate AverageAgrees(cfg: Config, i: Inputs, spot: int)
  {
    if cfg.twapEnabled then AverageRead(cfg, i) && Abs(spot - i.twapTick.value) <= cfg.maxDevTicks
    else cfg.dryRun || cfg.allowUnsafeSpot
  }

  /** What each named failure means, on the evaluation's own reads: at most one is met, and it is the first that
      applies, the average before the feed. */
  lemma MetMeans(cfg: Config, i: Inputs)
    requires i.position.Some?
    ensures var spot, met := i.position.value.spot, Met(GateMet(cfg, i));
      var at := if cfg.twapEnabled && i.twapTick.Some? then i.twapTick.value else spot;
      && (met == Some(AtTwapHistory) <==>
            && cfg.twapEnabled && i.historyAge.Some?
            && (i.historyAge.value < cfg.minTwapWindowSecs || cfg.twapWindowSecs < cfg.minTwapWindowSecs))
      && (met == Some(AtTwapUnavailable) <==>
            && cfg.twapEnabled
            && (i.historyAge.None?
                || (i.historyAge.value >= cfg.minTwapWindowSecs && cfg.twapWindowSecs >= cfg.minTwapWindowSecs
                    && i.twapTick.None?)))
      && (met == Some(AtTwapDev) <==>
            cfg.twapEnabled && AverageRead(cfg, i) && Abs(spot - i.twapTick.value) > cfg.maxDevTicks)
      && (met == Some(AtSpotUnsafe) <==> !cfg.twapEnabled && !cfg.dryRun && !cfg.allowUnsafeSpot)
      && (met == Some(AtOracleUnreadable) <==> AverageAgrees(cfg, i, spot) && cfg.oracleEnabled && i.oracle.None?)
      && (met == Some(AtOracleStale) <==>
            && AverageAgrees(cfg, i, spot) && cfg.oracleEnabled && i.oracle.Some?
            && i.oracle.value.ageSecs > cfg.oracleMaxAgeSecs)
      && (met == Some(AtOracleDev) <==>
            && AverageAgrees(cfg, i, spot) && cfg.oracleEnabled && i.oracle.Some?
            && i.oracle.value.ageSecs <= cfg.oracleMaxAgeSecs
            && Abs(at - i.oracle.value.tick) > cfg.oracleMaxDevTicks)
  {
  }

  // --- the two exceptions, on inputs ------------------------------------------------------------

  /** The overlap's settings with the feed, the regime or the sweep turned on. */
  function Extended(floor: nat, regime: bool, sweep: bool): Config
  {
    Overlaps.Settings(true, floor)
      .(oracleEnabled := regime, regimeEnabled := regime, compoundEnabled := sweep, compoundIntervalSecs := 995)
  }

  function Look(now: int, sweep: Sweep): Inputs
  {
    Overlaps.Tick(now, Overlaps.START, Overlaps.Caps(0), NotMined).(sweep := sweep)
  }

  lemma StillSeesDrift(floor: nat, regime: bool, sweep: bool)
    ensures var d := Triggers(Extended(floor, regime, sweep), Overlaps.At(Overlaps.START));
      d.Decided? && d.winner == Recenter
  {
  }

  /** The state once the trigger has been seen at 990. */
  lemma ReachesWaitingToo(floor: nat, regime: bool, sweep: bool)
    ensures KeeperRuns.Run(Extended(floor, regime, sweep), 0, [KeeperRuns.Block(Look(990, NothingToSweep))])
         == Overlaps.Waiting()
  {
    StillSeesDrift(floor, regime, sweep);
    var h := [KeeperRuns.Block(Look(990, NothingToSweep))];
    assert h[..0] == [];
  }

  lemma ArmedIsGated(floor: nat, regime: bool, sweep: bool, w: Sweep)
    ensures Evaluate(Extended(floor, regime, sweep), Overlaps.Waiting(), Look(1000, w)).report.gated
  {
    StillSeesDrift(floor, regime, sweep);
    var cfg, i := Extended(floor, regime, sweep), Look(1000, w);
    var d := Triggers(cfg, Overlaps.At(Overlaps.START));
    assert StepDwells(Overlaps.Waiting(), Recenter, 1000) == Overlaps.Waiting();
    var said := [Summary(290, Overlaps.START, Recenter, sweep, d.reason)];
    assert said + [] == said;
    PastCooldownIsGated(cfg, Overlaps.Waiting(), i, Overlaps.At(Overlaps.START), Recenter, i.caps, true, sweep, said);
  }

  lemma BlindIsExtreme(floor: nat, w: Sweep)
    ensures var cfg, i := Extended(floor, true, false), Look(1000, w);
      && GateMet(cfg, i).failed == Some(OracleUnreadable)
      && RegimeMet(cfg, Overlaps.Waiting(), i, GateMet(cfg, i)) == Extreme
  {
  }

  /** The feed unreadable with the regime on: the gate fails, the market counts as extreme, and the record
      shows gates that passed. */
  lemma HiddenGateExample(floor: nat)
    ensures var cfg, i := Extended(floor, true, false), Look(1000, NothingToSweep);
      var s := KeeperRuns.Run(cfg, 0, [KeeperRuns.Block(Look(990, NothingToSweep))]);
      && WellFormed(cfg)
      && Met(GateMet(cfg, i)) == Some(AtOracleUnreadable)
      && NamedFailure(RecordOf(cfg, s, i)) != Some(AtOracleUnreadable)
  {
    ReachesWaitingToo(floor, true, false);
    ArmedIsGated(floor, true, false, NothingToSweep);
    BlindIsExtreme(floor, NothingToSweep);
    RecordShowsTheGate(Extended(floor, true, false), Overlaps.Waiting(), Look(1000, NothingToSweep));
  }

  lemma OpenGate(floor: nat, w: Sweep)
    ensures GateMet(Extended(floor, false, true), Look(1000, w)).failed.None?
  {
  }

  /** A node's refusal of the sweep in the words of a gate, whichever gate: the gates passed, and the record
      names one that failed. */
  lemma PosingSweepExample(floor: nat, r: GateReason)
    ensures var cfg, i := Extended(floor, false, true), Look(1000, SweepRefused(GateSkip(r)));
      var s := KeeperRuns.Run(cfg, 0, [KeeperRuns.Block(Look(990, NothingToSweep))]);
      && WellFormed(cfg)
      && Met(GateMet(cfg, i)).None?
      && NamedFailure(RecordOf(cfg, s, i)).Some?
  {
    var w := SweepRefused(GateSkip(r));
    ReachesWaitingToo(floor, false, true);
    ArmedIsGated(floor, false, true, w);
    OpenGate(floor, w);
    RecordShowsTheGate(Extended(floor, false, true), Overlaps.Waiting(), Look(1000, w));
  }

  // --- the standing's key ---------------------------------------------------------------------

  /** The key of the evaluation itself: its exit and the gate failure it met, with a sweep refused by a
      failed gate counted as gate-blocked. */
  function TrueKey(cfg: Config, s: KeeperState, i: Inputs): StandingKey
    requires cfg.spacing > 0
  {
    var report := Evaluate(cfg, s, i).report;
    var met := if report.gated && i.position.Some? then Met(GateMet(cfg, i)) else None;
    StandingKey(if report.exit == ExitCompoundOnly && met.Some? then ExitGateBlocked else report.exit, met)
  }

  /** The record misleads: a wait printed negative, or another failure than the gates met. */
  predicate Misreported(cfg: Config, s: KeeperState, i: Inputs)
    requires cfg.spacing > 0
  {
    ClockBehind(cfg, s, i) || (Evaluate(cfg, s, i).report.gated && i.position.Some? && GateMisread(cfg, s, i))
  }

  lemma UngatedDwell(cfg: Config, s: KeeperState, i: Inputs, p: Position, w: Winner, due: bool, reason: Decide.Reason)
    requires cfg.spacing > 0
    ensures var r := AfterDwell(cfg, s, i, p, w, due,
                                [Summary(p.spot, p.base, w, due, reason)] + ArmingLines(cfg, s, w, i.now)).report;
      r.gated || LastTold(r.lines).None?
  {
    var first := Summary(p.spot, p.base, w, due, reason);
    var said := [first] + ArmingLines(cfg, s, w, i.now);
    var r := StepCooldown(cfg, s, i, w, said);
    WaitLinesTell(cfg, s, i, w, first);
    if r.CapsThrew? { UntoldAlone(said + [Failure]); }
    else if r.armed || due { PastCooldownIsGated(cfg, s, i, p, w, r.caps, r.armed, due, r.lines); }
  }

  lemma UngatedTellsNothing(cfg: Config, s: KeeperState, i: Inputs)
    requires cfg.spacing > 0 && !Evaluate(cfg, s, i).report.gated
    ensures LastTold(Evaluate(cfg, s, i).report.lines).None?
  {
    if Seen(cfg, i).Some? {
      var p, d := i.position.value, Triggers(cfg, i.position.value);
      UngatedDwell(cfg, StepDwells(s, d.winner, i.now), i, p, d.winner, CompoundDue(cfg, s, i.now), d.reason);
    } else {
      UntoldAlone([Failure]);
      assert [] + [Failure] == [Failure];
    }
  }

  lemma FailureNamed(cfg: Config, s: KeeperState, i: Inputs)
    requires cfg.spacing > 0
    ensures var r := Evaluate(cfg, s, i).report;
      r.gated ==> i.position.Some? && (NamedFailure(RecordOf(cfg, s, i)) == Met(GateMet(cfg, i))
                                       <==> !GateMisread(cfg, s, i))
    ensures !Evaluate(cfg, s, i).report.gated ==> NamedFailure(RecordOf(cfg, s, i)).None?
  {
    if Evaluate(cfg, s, i).report.gated {
      RecordShowsTheGate(cfg, s, i);
    } else {
      UngatedTellsNothing(cfg, s, i);
      NamedIsLastTold(Evaluate(cfg, s, i).report.lines);
    }
  }

  lemma KeyOfRecord(rec: CycleRecord)
    requires rec.gate.Some? ==> (rec.gate.value.ok <==> rec.gate.value.failedAt.None?)
    ensures StandingOf(rec).subcode == NamedFailure(rec)
    ensures StandingOf(rec).code
         == if rec.code == ExitCompoundOnly && NamedFailure(rec).Some? then ExitGateBlocked else rec.code
  {
  }

  lemma GateIsConsistent(p: Pending)
    ensures var gate := Finalize(p).gate; gate.Some? ==> (gate.value.ok <==> gate.value.failedAt.None?)
  {
  }

  /** The key the standing and the episodes go by is the evaluation's own exactly when nothing was
      misreported. */
  lemma KeyTellsTheEvaluation(cfg: Config, s: KeeperState, i: Inputs)
    requires cfg.spacing > 0
    ensures StandingOf(RecordOf(cfg, s, i)) == TrueKey(cfg, s, i) <==> !Misreported(cfg, s, i)
  {
    RecordTellsTheEvaluation(cfg, s, i);
    FailureNamed(cfg, s, i);
    GateIsConsistent(ParseAll(UNREAD, Evaluate(cfg, s, i).report.lines));
    KeyOfRecord(RecordOf(cfg, s, i));
  }
}
