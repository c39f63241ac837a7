/** The rest of a record, against the evaluation: how the sweep went, a change of regime, a walked band, and the
    ticks the gates compared. */
module RecordDetails {
  import opened Wrappers
  import opened Ticks
  import Decide
  import opened Regime
  import opened Keeper
  import opened StatusLog
  import opened LogRoundTrip
  import opened GateRecord

  const NOTHING := Details(None, None, false, None, None)

  /** What one line adds. */
  function Adding(d: Details, line: Line): Details
  {
    match line
    case TwapOk(tick, _) => d.(twap := Some(tick))
    case OracleOk(tick, _, _) => d.(oracle := Some(tick))
    case RegimeChanged(r) => d.(regimeChange := Some(r))
    case ClampWalk => d.(clamped := true)
    case SkipGate(r) => Numbered(d, r)
    case CompoundSkipped(GateSkip(r)) => Numbered(d.(compound := Some(Compound(false, false, false))), r)
    case CompoundSkipped(RegimeSkip(_)) => d.(compound := Some(Compound(false, false, false)))
    case CompoundSkipped(OtherSkip) => d.(compound := Some(Compound(true, WasSubmitted(d), false)))
    case CompoundInfo => d.(compound := Some(Compound(true, WasSubmitted(d), false)))
    case CompoundSubmitted => d.(compound := Some(Compound(true, true, false)))
    case Compounded => d.(compound := Some(Compound(true, WasSubmitted(d), true)))
    case _ => d
  }

  function WasSubmitted(d: Details): bool { d.compound.Some? && d.compound.value.submitted }

  /** The tick a deviation was measured from. */
  function Numbered(d: Details, r: GateReason): Details
  {
    match r
    case TwapDev(tick, _) => d.(twap := Some(tick))
    case OracleDev(tick, _) => d.(oracle := Some(tick))
    case _ => d
  }

  function DetailsOf(p: Pending): Details
  {
    Details(p.compound, p.regimeChange, p.clamped, p.twap, p.oracle)
  }

  function DetailsIn(lines: seq<Line>): Details
  {
    if lines == [] then NOTHING else Adding(DetailsIn(lines[..|lines| - 1]), lines[|lines| - 1])
  }

  lemma NumbersAdd(p: Pending, r: GateReason)
    ensures DetailsOf(WithGateNumbers(p, r)) == Numbered(DetailsOf(p), r)
  {
  }

  lemma SkipAdds(p: Pending, why: SkipReason)
    ensures DetailsOf(ParseBody(p, CompoundSkipped(why))) == Adding(DetailsOf(p), CompoundSkipped(why))
  {
    match why
    case GateSkip(r) =>
      NumbersAdd(p.(pastCooldown := true, gateFail := Some(GateFail(FailedAtFor(r), ViaCompound)),
                    compound := Some(Compound(false, false, false))), r);
    case RegimeSkip(_) =>
    case OtherSkip =>
  }

  lemma GateSkipAdds(p: Pending, r: GateReason)
    ensures DetailsOf(ParseBody(p, SkipGate(r))) == Adding(DetailsOf(p), SkipGate(r))
  {
    NumbersAdd(Mark(p, ExitGateBlocked).(gateFail := Some(GateFail(FailedAtFor(r), ViaSkip))), r);
  }

  lemma ArmingAdds(p: Pending, leg: Winner, held: int, required: int)
    ensures DetailsOf(ParseBody(p, Arming(leg, held, required))) == DetailsOf(p)
  {
  }

  lemma IntervalAdds(p: Pending, elapsed: int, required: int)
    ensures DetailsOf(ParseBody(p, MinInterval(elapsed, required))) == DetailsOf(p)
  {
  }

  lemma MarkAdds(p: Pending, line: Line)
    requires Marks(line)
    ensures DetailsOf(ParseBody(p, line)) == DetailsOf(p)
  {
  }

  lemma OtherAdds(p: Pending, line: Line)
    requires !line.Summary? && !line.CompoundSkipped? && !line.SkipGate? && !line.Arming? && !line.MinInterval?
    requires !Marks(line)
    ensures DetailsOf(ParseBody(p, line)) == Adding(DetailsOf(p), line)
  {
  }

  lemma LineAdds(p: Pending, line: Line)
    ensures DetailsOf(ParseLine(p, line)) == Adding(DetailsOf(p), line)
  {
    if line.CompoundSkipped? { SkipAdds(p, line.why); }
    else if line.SkipGate? { GateSkipAdds(p, line.gate); }
    else if line.Arming? { ArmingAdds(p, line.leg, line.heldSecs, line.requiredSecs); }
    else if line.MinInterval? { IntervalAdds(p, line.elapsedSecs, line.requiredSecs); }
    else if Marks(line) { MarkAdds(p, line); }
    else if !line.Summary? { OtherAdds(p, line); }
  }

  lemma {:induction false} ParsedIsDetailsIn(lines: seq<Line>)
    ensures Finalize(ParseAll(UNREAD, lines)).details == DetailsIn(lines)
  {
    if lines != [] {
      ParsedIsDetailsIn(lines[..|lines| - 1]);
      LineAdds(ParseAll(UNREAD, lines[..|lines| - 1]), lines[|lines| - 1]);
    }
  }

  // --- stage by stage -------------------------------------------------------------------------

  /** A way to read details out of lines. */
  type Fold = seq<Line> -> Details

  /** Nothing at first, and every line adding its own. */
  ghost predicate IsFold(f: Fold)
  {
    f([]) == NOTHING && forall said: seq<Line>, line: Line :: f(said + [line]) == Adding(f(said), line)
  }

  lemma DetailsInIsFold()
    ensures IsFold(DetailsIn)
  {
    forall said: seq<Line>, line: Line ensures DetailsIn(said + [line]) == Adding(DetailsIn(said), line) {
      assert (said + [line])[..|said|] == said;
    }
  }

  lemma One(f: Fold, said: seq<Line>, line: Line)
    requires IsFold(f)
    ensures f(said + [line]) == Adding(f(said), line)
  {
  }

  predicate Plain(line: Line)
  {
    && !line.TwapOk? && !line.OracleOk? && !line.RegimeChanged? && !line.ClampWalk? && !line.SkipGate?
    && !line.CompoundSkipped? && !line.CompoundInfo? && !line.CompoundSubmitted? && !line.Compounded?
  }

  lemma PlainAdds(d: Details, line: Line)
    requires Plain(line)
    ensures Adding(d, line) == d
  {
  }

  lemma {:induction false} PlainAfter(f: Fold, said: seq<Line>, lines: seq<Line>)
    requires IsFold(f)
    requires forall k :: 0 <= k < |lines| ==> Plain(lines[k])
    ensures f(said + lines) == f(said)
  {
    if lines == [] {
      assert said + lines == said;
    } else {
      var n := |lines| - 1;
      PlainAfter(f, said, lines[..n]);
      One(f, said + lines[..n], lines[n]);
      PlainAdds(f(said + lines[..n]), lines[n]);
      assert said + lines == said + lines[..n] + [lines[n]];
    }
  }

  /** More lines that add nothing. */
  predicate Trails(said: seq<Line>, lines: seq<Line>)
  {
    |said| <= |lines| && lines[..|said|] == said && forall k :: |said| <= k < |lines| ==> Plain(lines[k])
  }

  lemma TrailsAdd(f: Fold, said: seq<Line>, lines: seq<Line>)
    requires IsFold(f)
    requires Trails(said, lines)
    ensures f(lines) == f(said)
  {
    PlainAfter(f, said, lines[|said|..]);
    assert lines == said + lines[|said|..];
  }

  /** A band is walked short of its target. */
  predicate Walked(aim: BasePlan)
  {
    !aim.Unworkable? && aim.clamped
  }

  function WalkLines(aim: BasePlan): seq<Line>
  {
    if Walked(aim) then [ClampWalk] else []
  }

  lemma TailTrails(said: seq<Line>, more: seq<Line>)
    requires forall k :: 0 <= k < |more| ==> Plain(more[k])
    ensures Trails(said, said + more)
  {
  }

  lemma SubmitTrails(s: KeeperState, i: Inputs, plan: Plan, said: seq<Line>)
    ensures Trails(said, Submit(s, i, plan, said).report.lines)
  {
    TailTrails(said, [Failure]);
    TailTrails(said, [LandedLine(plan.kind)]);
  }

  lemma PlanTrails(s: KeeperState, i: Inputs, plan: Plan, more: seq<Line>)
    ensures var told := more + [PlanLine(plan)];
      && Trails(more, told + [DryRunLine]) && Trails(more, told + [PreflightRevertLine])
      && Trails(more, Submit(s, i, plan, told + [Submitting]).report.lines)
  {
    var told := more + [PlanLine(plan)];
    TailTrails(more, [PlanLine(plan), DryRunLine]);
    TailTrails(more, [PlanLine(plan), PreflightRevertLine]);
    TailTrails(more, [PlanLine(plan), Submitting]);
    assert more + [PlanLine(plan), DryRunLine] == told + [DryRunLine];
    assert more + [PlanLine(plan), PreflightRevertLine] == told + [PreflightRevertLine];
    assert more + [PlanLine(plan), Submitting] == told + [Submitting];
    SubmitTrails(s, i, plan, told + [Submitting]);
    var lines := Submit(s, i, plan, told + [Submitting]).report.lines;
    assert lines[..|more|] == lines[..|told| + 1][..|more|];
  }

  lemma PlaceTrails(cfg: Config, s: KeeperState, i: Inputs, p: Position, w: Winner, caps: Option<ProxyCaps>,
                    tick: int, mult: int, said: seq<Line>)
    requires cfg.spacing > 0
    ensures Trails(said + WalkLines(PlanBase(cfg, w, p.base, caps, tick, mult)),
                   Place(cfg, s, i, p, w, caps, tick, mult, said).report.lines)
  {
    var more := said + WalkLines(PlanBase(cfg, w, p.base, caps, tick, mult));
    TailTrails(more, [SkipTranslation]);
    TailTrails(more, [SkipWidth]);
    TailTrails(more, [Failure]);
    match PlanBase(cfg, w, p.base, caps, tick, mult)
    case Unworkable => assert more == said;
    case TooWide(_) =>
    case BaseAt(band, _) =>
      PlanTrails(s, i, Plan(w, band, LimitRange(p.spot, cfg.spacing, i.side, cfg.limitWidthMult), i.side), more);
  }

  lemma WalkAdds(f: Fold, said: seq<Line>, aim: BasePlan)
    requires IsFold(f)
    ensures f(said + WalkLines(aim)) == if Walked(aim) then f(said).(clamped := true) else f(said)
  {
    if Walked(aim) { One(f, said, ClampWalk); } else { assert said + [] == said; }
  }

  lemma PlaceAdds(f: Fold, cfg: Config, s: KeeperState, i: Inputs, p: Position, w: Winner, caps: Option<ProxyCaps>,
                  tick: int, mult: int, said: seq<Line>)
    requires IsFold(f)
    requires cfg.spacing > 0
    ensures f(Place(cfg, s, i, p, w, caps, tick, mult, said).report.lines)
         == if Walked(PlanBase(cfg, w, p.base, caps, tick, mult)) then f(said).(clamped := true)
            else f(said)
  {
    var aim := PlanBase(cfg, w, p.base, caps, tick, mult);
    PlaceTrails(cfg, s, i, p, w, caps, tick, mult, said);
    TrailsAdd(f, said + WalkLines(aim), Place(cfg, s, i, p, w, caps, tick, mult, said).report.lines);
    WalkAdds(f, said, aim);
  }

  /** What acting adds: the deviation it was refused for, or a walk. */
  function ByActing(cfg: Config, i: Inputs, p: Position, w: Winner, caps: Option<ProxyCaps>, armed: bool, gate: Gate,
                    regime: Regime, mult: int, d: Details): Details
    requires cfg.spacing > 0
  {
    if !armed || regime == Extreme then d
    else if gate.failed.Some? then Numbered(d, gate.failed.value)
    else
      var tick := if gate.twapTick.Some? then gate.twapTick.value else p.spot;
      if i.belowGasFloor == Some(false) && Walked(PlanBase(cfg, w, p.base, caps, tick, mult)) then d.(clamped := true)
      else d
  }

  lemma RefusedTrails(cfg: Config, s: KeeperState, i: Inputs, p: Position, w: Winner, caps: Option<ProxyCaps>,
                      armed: bool, gate: Gate, regime: Regime, mult: int, said: seq<Line>)
    requires cfg.spacing > 0
    requires !armed || regime == Extreme || (gate.failed.None? && i.belowGasFloor != Some(false))
    ensures Trails(said, AfterSweep(cfg, s, i, p, w, caps, armed, gate, regime, mult, said).report.lines)
  {
    TailTrails(said, []);
    TailTrails(said, [SkipExtreme, Noise]);
    TailTrails(said, [Failure]);
    TailTrails(said, [SkipGas]);
    assert said + [] == said;
  }

  lemma ActAdds(f: Fold, cfg: Config, s: KeeperState, i: Inputs, p: Position, w: Winner, caps: Option<ProxyCaps>,
                armed: bool, gate: Gate, regime: Regime, mult: int, said: seq<Line>)
    requires IsFold(f)
    requires cfg.spacing > 0
    ensures f(AfterSweep(cfg, s, i, p, w, caps, armed, gate, regime, mult, said).report.lines)
         == ByActing(cfg, i, p, w, caps, armed, gate, regime, mult, f(said))
  {
    if !armed || regime == Extreme || (gate.failed.None? && i.belowGasFloor != Some(false)) {
      RefusedTrails(cfg, s, i, p, w, caps, armed, gate, regime, mult, said);
      TrailsAdd(f, said, AfterSweep(cfg, s, i, p, w, caps, armed, gate, regime, mult, said).report.lines);
    } else if gate.failed.Some? {
      One(f, said, SkipGate(gate.failed.value));
    } else {
      PlaceAdds(f, cfg, s, i, p, w, caps, if gate.twapTick.Some? then gate.twapTick.value else p.spot, mult, said);
    }
  }

  /** How a sweep shows: refused by a gate or the market; not reached; let through; submitted; landed. */
  function SweepShown(due: bool, gate: Gate, regime: Regime, w: Sweep): Option<Compound>
  {
    if !due then None
    else if gate.failed.Some? || regime != Calm then Some(Compound(false, false, false))
    else
      match w
      case SweepReadsThrew => None
      case Swept => Some(Compound(true, true, true))
      case SweepRefused(why) => Some(Compound(why.OtherSkip?, false, false))
      case SweepFailed(why) => Some(Compound(why.OtherSkip?, why.OtherSkip?, false))
      case _ => Some(Compound(true, false, false))
  }

  /** The deviation a refusal of the sweep is for. */
  function BySweeping(due: bool, gate: Gate, regime: Regime, w: Sweep, d: Details): Details
  {
    var shown := SweepShown(due, gate, regime, w);
    var d := if shown.Some? then d.(compound := shown) else d;
    if !due then d
    else if gate.failed.Some? then Numbered(d, gate.failed.value)
    else if regime != Calm then d
    else
      match w
      case SweepRefused(GateSkip(r)) => Numbered(d, r)
      case SweepFailed(GateSkip(r)) => Numbered(d, r)
      case _ => d
  }

  function Shown(d: Details, allowed: bool, submitted: bool, landed: bool): Details
  {
    d.(compound := Some(Compound(allowed, submitted, landed)))
  }

  lemma InfoAdds(f: Fold, said: seq<Line>)
    requires IsFold(f)
    requires f(said).compound.None?
    ensures f(said + [CompoundInfo]) == Shown(f(said), true, false, false)
    ensures f(said + [CompoundInfo, CompoundInfo]) == Shown(f(said), true, false, false)
  {
    One(f, said, CompoundInfo);
    One(f, said + [CompoundInfo], CompoundInfo);
    assert said + [CompoundInfo] + [CompoundInfo] == said + [CompoundInfo, CompoundInfo];
  }

  lemma SubmittedAdds(f: Fold, said: seq<Line>)
    requires IsFold(f)
    requires f(said).compound.None?
    ensures var told := said + [CompoundInfo, CompoundInfo] + [CompoundSubmitted];
      && f(told) == Shown(f(said), true, true, false)
      && f(told + [Compounded]) == Shown(f(said), true, true, true)
  {
    var info := said + [CompoundInfo, CompoundInfo];
    InfoAdds(f, said);
    One(f, info, CompoundSubmitted);
    One(f, info + [CompoundSubmitted], Compounded);
  }

  lemma SkipLineAdds(f: Fold, told: seq<Line>, d: Details, submitted: bool, why: SkipReason)
    requires IsFold(f)
    requires f(told) == Shown(d, true, submitted, false)
    ensures f(told + [CompoundSkipped(why)])
         == if why.GateSkip? then Numbered(Shown(d, false, false, false), why.gate)
            else if why.OtherSkip? then Shown(d, true, submitted, false)
            else Shown(d, false, false, false)
  {
    One(f, told, CompoundSkipped(why));
  }

  lemma SweepLinesAdd(f: Fold, said: seq<Line>, w: Sweep, gate: Gate)
    requires IsFold(f)
    requires f(said).compound.None? && gate.failed.None?
    ensures f(said + SweepLines(w)) == BySweeping(true, gate, Calm, w, f(said))
  {
    var info := said + [CompoundInfo, CompoundInfo];
    InfoAdds(f, said);
    SubmittedAdds(f, said);
    match w
    case SweepRefused(why) =>
      SkipLineAdds(f, info, f(said), false, why);
      assert info + [CompoundSkipped(why)] == said + SweepLines(w);
    case SweepFailed(why) =>
      SkipLineAdds(f, info + [CompoundSubmitted], f(said), true, why);
      assert info + [CompoundSubmitted] + [CompoundSkipped(why)] == said + SweepLines(w);
    case Swept => assert info + [CompoundSubmitted] + [Compounded] == said + SweepLines(w);
    case SweepReadsThrew => assert said + [] == said;
    case _ =>
  }

  lemma GateRefusalAdds(f: Fold, said: seq<Line>, due: bool, gate: Gate, regime: Regime, w: Sweep)
    requires IsFold(f)
    requires f(said).compound.None? && due && gate.failed.Some?
    ensures f(said + [CompoundSkipped(GateSkip(gate.failed.value))])
         == BySweeping(due, gate, regime, w, f(said))
  {
    One(f, said, CompoundSkipped(GateSkip(gate.failed.value)));
  }

  lemma MarketRefusalAdds(f: Fold, said: seq<Line>, due: bool, gate: Gate, regime: Regime, w: Sweep)
    requires IsFold(f)
    requires f(said).compound.None? && due && gate.failed.None? && regime != Calm
    ensures f(said + [CompoundSkipped(RegimeSkip(regime))]) == BySweeping(due, gate, regime, w, f(said))
  {
    One(f, said, CompoundSkipped(RegimeSkip(regime)));
  }

  lemma SweepLinesOf(s: KeeperState, i: Inputs, due: bool, gate: Gate, regime: Regime, said: seq<Line>)
    ensures StepSweep(s, i, due, gate, regime, said).lines ==
      if !due then said
      else if gate.failed.Some? then said + [CompoundSkipped(GateSkip(gate.failed.value))]
      else if regime != Calm then said + [CompoundSkipped(RegimeSkip(regime))]
      else said + SweepLines(i.sweep)
  {
  }

  lemma StepSweepAdds(f: Fold, s: KeeperState, i: Inputs, due: bool, gate: Gate, regime: Regime, said: seq<Line>)
    requires IsFold(f)
    requires f(said).compound.None?
    ensures f(StepSweep(s, i, due, gate, regime, said).lines)
         == BySweeping(due, gate, regime, i.sweep, f(said))
  {
    SweepLinesOf(s, i, due, gate, regime, said);
    if due {
      if gate.failed.Some? { GateRefusalAdds(f, said, due, gate, regime, i.sweep); }
      else if regime != Calm { MarketRefusalAdds(f, said, due, gate, regime, i.sweep); }
      else { SweepLinesAdd(f, said, i.sweep, gate); }
    }
  }

  lemma SweepStageAdds(f: Fold, cfg: Config, s: KeeperState, i: Inputs, p: Position, w: Winner, caps: Option<ProxyCaps>,
                       armed: bool, due: bool, gate: Gate, regime: Regime, mult: int, said: seq<Line>)
    requires IsFold(f)
    requires cfg.spacing > 0 && f(said).compound.None?
    ensures f(AfterRegime(cfg, s, i, p, w, caps, armed, due, gate, regime, mult, said).report.lines)
         == var d := BySweeping(due, gate, regime, i.sweep, f(said));
            if StepSweep(s, i, due, gate, regime, said).threw then d
            else ByActing(cfg, i, p, w, caps, armed, gate, regime, mult, d)
  {
    var r := StepSweep(s, i, due, gate, regime, said);
    StepSweepAdds(f, s, i, due, gate, regime, said);
    if r.threw { One(f, r.lines, Failure); }
    else { ActAdds(f, cfg, r.state, i, p, w, caps, armed, gate, regime, mult, r.lines); }
  }

  // --- what the record shows ----------------------------------------------------------------------

  predicate Unposed(i: Inputs)
  {
    Mimics(i.sweep).None?
  }

  /** What was told before the sweep: the ticks of gates that passed, and a change of regime. */
  function BeforeSweep(gate: Gate, change: Option<Regime>): Details
  {
    Details(None, change, false, TickOk(gate.lines), FeedOk(gate.lines))
  }

  function TickOk(lines: seq<Line>): Option<int>
  {
    if lines != [] && lines[0].TwapOk? then Some(lines[0].tick) else None
  }

  function FeedOk(lines: seq<Line>): Option<int>
  {
    if lines != [] && lines[|lines| - 1].OracleOk? then Some(lines[|lines| - 1].tick) else None
  }

  /** The lines of a gate: the average's, then the feed's, each if it passed. */
  predicate GateShaped(lines: seq<Line>)
  {
    && |lines| <= 2
    && (|lines| == 1 ==> lines[0].TwapOk? || lines[0].OracleOk?)
    && (|lines| == 2 ==> lines[0].TwapOk? && lines[1].OracleOk?)
  }

  lemma GateIsShaped(cfg: Config, i: Inputs, spot: int)
    ensures GateShaped(CheckPrice(cfg, i, spot).lines)
  {
  }

  lemma ShapedAdds(f: Fold, said: seq<Line>, lines: seq<Line>)
    requires IsFold(f)
    requires f(said) == NOTHING && GateShaped(lines)
    ensures f(said + lines) == Details(None, None, false, TickOk(lines), FeedOk(lines))
  {
    if |lines| == 0 {
      assert said + lines == said;
    } else if |lines| == 1 {
      One(f, said, lines[0]);
      assert said + lines == said + [lines[0]];
    } else {
      One(f, said, lines[0]);
      One(f, said + [lines[0]], lines[1]);
      assert said + lines == said + [lines[0]] + [lines[1]];
    }
  }

  lemma GateLinesAdd(f: Fold, cfg: Config, i: Inputs, spot: int, said: seq<Line>)
    requires IsFold(f)
    requires f(said) == NOTHING
    ensures var gate := CheckPrice(cfg, i, spot);
      f(said + gate.lines) == BeforeSweep(gate, None)
  {
    GateIsShaped(cfg, i, spot);
    ShapedAdds(f, said, CheckPrice(cfg, i, spot).lines);
  }

  lemma RegimeLinesAre(cfg: Config, s: KeeperState, i: Inputs, gate: Gate) returns (vol: seq<Line>, wide: seq<Line>)
    ensures var r := EvaluateRegime(cfg, s, i, gate);
      r.lines == vol + (if r.decision.changed then [RegimeChanged(r.decision.regime)] else []) + wide
    ensures forall k :: 0 <= k < |vol| ==> Plain(vol[k])
    ensures forall k :: 0 <= k < |wide| ==> Plain(wide[k])
  {
    var fetches := cfg.indexerEnabled
      && (s.volFetchedAt.None? || i.now - s.volFetchedAt.value >= cfg.volRefreshSecs);
    vol := if fetches && i.vol.Ratio? then [VolLine]
           else if fetches && i.vol.Missed? && i.vol.logged then [Noise]
           else [];
    wide := if EvaluateRegime(cfg, s, i, gate).decision.regime == Elevated then [RegimeElevated] else [];
  }

  lemma ChangeAdds(f: Fold, said: seq<Line>, vol: seq<Line>, wide: seq<Line>, changed: bool, regime: Regime,
                   lines: seq<Line>)
    requires IsFold(f)
    requires forall k :: 0 <= k < |vol| ==> Plain(vol[k])
    requires forall k :: 0 <= k < |wide| ==> Plain(wide[k])
    requires lines == vol + (if changed then [RegimeChanged(regime)] else []) + wide
    ensures f(said + lines)
         == if changed then f(said).(regimeChange := Some(regime)) else f(said)
  {
    PlainAfter(f, said, vol);
    if changed {
      One(f, said + vol, RegimeChanged(regime));
      PlainAfter(f, said + vol + [RegimeChanged(regime)], wide);
      assert said + lines == said + vol + [RegimeChanged(regime)] + wide;
    } else {
      PlainAfter(f, said + vol, wide);
      assert said + lines == said + vol + wide;
    }
  }

  lemma RegimeLinesAdd(f: Fold, cfg: Config, s: KeeperState, i: Inputs, gate: Gate, said: seq<Line>)
    requires IsFold(f)
    ensures var r := EvaluateRegime(cfg, s, i, gate);
      f(said + r.lines)
      == if r.decision.changed then f(said).(regimeChange := Some(r.decision.regime)) else f(said)
  {
    var r := EvaluateRegime(cfg, s, i, gate);
    var vol, wide := RegimeLinesAre(cfg, s, i, gate);
    ChangeAdds(f, said, vol, wide, r.decision.changed, r.decision.regime, r.lines);
  }

  /** What was told when the sweep was over. */
  function Swept(cfg: Config, s: KeeperState, i: Inputs, p: Position, due: bool): Details
  {
    var gate := CheckPrice(cfg, i, p.spot);
    var regime := RegimeMet(cfg, s, i, gate);
    var changed := cfg.regimeEnabled && EvaluateRegime(cfg, s, i, gate).decision.changed;
    BySweeping(due, gate, regime, i.sweep, BeforeSweep(gate, if changed then Some(regime) else None))
  }

  predicate SweepEnded(cfg: Config, s: KeeperState, i: Inputs, p: Position, due: bool)
  {
    var gate := CheckPrice(cfg, i, p.spot);
    due && gate.failed.None? && RegimeMet(cfg, s, i, gate) == Calm && SweepThrows(i.sweep)
  }

  /** What the gates, the market, the sweep and the act tell together. */
  function Told(cfg: Config, s: KeeperState, i: Inputs, p: Position, w: Winner, caps: Option<ProxyCaps>, armed: bool,
                due: bool): Details
    requires cfg.spacing > 0
  {
    var gate := CheckPrice(cfg, i, p.spot);
    var regime := RegimeMet(cfg, s, i, gate);
    if !cfg.regimeEnabled && !gate.feedHealthy then BeforeSweep(gate, None)
    else if SweepEnded(cfg, s, i, p, due) then Swept(cfg, s, i, p, due)
    else ByActing(cfg, i, p, w, caps, armed, gate, regime,
                  BandMultForRegime(regime, cfg.baseHalfWidthMult, cfg.elevatedHalfWidthMult), Swept(cfg, s, i, p, due))
  }

  lemma RegimeStageAdds(f: Fold, cfg: Config, s: KeeperState, i: Inputs, p: Position, w: Winner,
                        caps: Option<ProxyCaps>,
                        armed: bool, due: bool, said: seq<Line>)
    requires IsFold(f)
    requires cfg.spacing > 0 && cfg.regimeEnabled && f(said) == NOTHING
    ensures f(AfterCooldown(cfg, s, i, p, w, caps, armed, due, said).report.lines)
         == Told(cfg, s, i, p, w, caps, armed, due)
  {
    var gate := CheckPrice(cfg, i, p.spot);
    var r := EvaluateRegime(cfg, s, i, gate);
    GateLinesAdd(f, cfg, i, p.spot, said);
    RegimeLinesAdd(f, cfg, s, i, gate, said + gate.lines);
    SweepStageAdds(f, cfg, r.state, i, p, w, caps, armed, due, gate, r.decision.regime,
      BandMultForRegime(r.decision.regime, cfg.baseHalfWidthMult, cfg.elevatedHalfWidthMult),
      said + gate.lines + r.lines);
  }

  lemma CalmStageAdds(f: Fold, cfg: Config, s: KeeperState, i: Inputs, p: Position, w: Winner, caps: Option<ProxyCaps>,
                      armed: bool, due: bool, said: seq<Line>)
    requires IsFold(f)
    requires cfg.spacing > 0 && !cfg.regimeEnabled && f(said) == NOTHING
    ensures f(AfterCooldown(cfg, s, i, p, w, caps, armed, due, said).report.lines)
         == Told(cfg, s, i, p, w, caps, armed, due)
  {
    var gate := CheckPrice(cfg, i, p.spot);
    GateLinesAdd(f, cfg, i, p.spot, said);
    if gate.feedHealthy {
      SweepStageAdds(f, cfg, s, i, p, w, caps, armed, due, gate, Calm, cfg.baseHalfWidthMult, said + gate.lines);
    } else {
      One(f, said + gate.lines, NoRegimeFeed);
    }
  }

  lemma WaitAddsNothing(f: Fold, cfg: Config, s: KeeperState, i: Inputs, w: Winner, first: Line)
    requires IsFold(f)
    requires Plain(first)
    ensures var said := [first] + ArmingLines(cfg, s, w, i.now);
      var r := StepCooldown(cfg, s, i, w, said);
      && f(said) == NOTHING && f(said + [Failure]) == NOTHING
      && (r.Ready? ==> f(r.lines) == NOTHING)
  {
    var said := [first] + ArmingLines(cfg, s, w, i.now);
    var r := StepCooldown(cfg, s, i, w, said);
    PlainAfter(f, [], said);
    assert [] + said == said;
    TailTrails(said, [Failure]);
    TrailsAdd(f, said, said + [Failure]);
    if r.Ready? && r.lines != said { TrailsAdd(f, said, r.lines); }
  }

  lemma DwellAdds(f: Fold, cfg: Config, s: KeeperState, i: Inputs, p: Position, w: Winner, due: bool,
                  reason: Decide.Reason)
    requires IsFold(f)
    requires cfg.spacing > 0
    ensures var said := [Summary(p.spot, p.base, w, due, reason)] + ArmingLines(cfg, s, w, i.now);
      var step := AfterDwell(cfg, s, i, p, w, due, said);
      var r := StepCooldown(cfg, s, i, w, said);
      f(step.report.lines) == if r.Ready? && (r.armed || due) then Told(cfg, s, i, p, w, r.caps, r.armed, due)
                                      else NOTHING
  {
    var first := Summary(p.spot, p.base, w, due, reason);
    var r := StepCooldown(cfg, s, i, w, [first] + ArmingLines(cfg, s, w, i.now));
    WaitAddsNothing(f, cfg, s, i, w, first);
    if r.Ready? && (r.armed || due) {
      if cfg.regimeEnabled { RegimeStageAdds(f, cfg, s, i, p, w, r.caps, r.armed, due, r.lines); }
      else { CalmStageAdds(f, cfg, s, i, p, w, r.caps, r.armed, due, r.lines); }
    }
  }

  predicate GatesReached(cfg: Config, s: KeeperState, i: Inputs)
    requires cfg.spacing > 0
  {
    Evaluate(cfg, s, i).report.gated && i.position.Some?
  }

  /** The trigger is past its dwell and the cooldown. */
  predicate Acts(cfg: Config, s: KeeperState, i: Inputs, w: Winner)
  {
    var r := StepCooldown(cfg, StepDwells(s, w, i.now), i, w, []);
    r.Ready? && r.armed
  }

  /** A plan was worked out, and its band walked short of the target. */
  predicate WalksFor(cfg: Config, s: KeeperState, i: Inputs, p: Position, w: Winner, due: bool)
    requires cfg.spacing > 0
  {
    var gate := CheckPrice(cfg, i, p.spot);
    var regime := RegimeMet(cfg, s, i, gate);
    && Acts(cfg, s, i, w) && gate.failed.None? && regime != Extreme && i.belowGasFloor == Some(false)
    && !(due && regime == Calm && SweepThrows(i.sweep))
    && Walked(PlanBase(cfg, w, p.base, if cfg.proxied then i.caps else None,
                       if gate.twapTick.Some? then gate.twapTick.value else p.spot,
                       BandMultForRegime(regime, cfg.baseHalfWidthMult, cfg.elevatedHalfWidthMult)))
  }

  /** The details as they should be. */
  predicate ToldRightly(cfg: Config, s: KeeperState, i: Inputs, p: Position, w: Winner, due: bool, d: Details)
    requires cfg.spacing > 0
  {
    var gate := CheckPrice(cfg, i, p.spot);
    var regime := RegimeMet(cfg, s, i, gate);
    && d.compound == (if !cfg.regimeEnabled && !gate.feedHealthy then None
                      else SweepShown(due, gate, regime, i.sweep))
    && d.regimeChange == (if cfg.regimeEnabled && regime != s.regime.regime then Some(regime) else None)
    && (gate.failed.None? && Unposed(i) && cfg.twapEnabled ==> d.twap == i.twapTick)
    && (gate.failed.None? && Unposed(i) && cfg.oracleEnabled ==>
          i.oracle.Some? && d.oracle == Some(i.oracle.value.tick))
    && (d.clamped <==> WalksFor(cfg, s, i, p, w, due))
  }

  lemma GateTold(cfg: Config, i: Inputs, spot: int, change: Option<Regime>)
    ensures var gate := CheckPrice(cfg, i, spot); var d := BeforeSweep(gate, change);
      && (gate.failed.None? && cfg.twapEnabled ==> d.twap == i.twapTick)
      && (gate.failed.None? && cfg.oracleEnabled ==> i.oracle.Some? && d.oracle == Some(i.oracle.value.tick))
      && (!gate.feedHealthy ==> gate.failed.Some?)
  {
  }

  lemma NumbersOnly(d: Details, r: GateReason)
    ensures var n := Numbered(d, r);
      n.compound == d.compound && n.regimeChange == d.regimeChange && n.clamped == d.clamped
  {
  }

  lemma SweptKeeps(due: bool, gate: Gate, regime: Regime, i: Inputs, d: Details)
    requires d.compound.None?
    ensures var n := BySweeping(due, gate, regime, i.sweep, d);
      && n.compound == SweepShown(due, gate, regime, i.sweep)
      && n.regimeChange == d.regimeChange && n.clamped == d.clamped
      && (gate.failed.None? && Unposed(i) ==> n.twap == d.twap && n.oracle == d.oracle)
  {
    if gate.failed.Some? { NumbersOnly(d, gate.failed.value); }
  }

  lemma ActedKeeps(cfg: Config, i: Inputs, p: Position, w: Winner, caps: Option<ProxyCaps>, armed: bool, gate: Gate,
                   regime: Regime, mult: int, d: Details)
    requires cfg.spacing > 0 && !d.clamped
    ensures var n := ByActing(cfg, i, p, w, caps, armed, gate, regime, mult, d);
      && n.compound == d.compound && n.regimeChange == d.regimeChange
      && (gate.failed.None? ==> n.twap == d.twap && n.oracle == d.oracle)
      && (n.clamped <==>
            && armed && gate.failed.None? && regime != Extreme && i.belowGasFloor == Some(false)
            && Walked(PlanBase(cfg, w, p.base, caps,
                               if gate.twapTick.Some? then gate.twapTick.value else p.spot, mult)))
  {
    if gate.failed.Some? { NumbersOnly(d, gate.failed.value); }
  }

  /** What the gates and the sweep told, whatever the act adds. */
  lemma SweptIsRight(cfg: Config, s: KeeperState, i: Inputs, p: Position, due: bool)
    ensures var gate := CheckPrice(cfg, i, p.spot); var regime := RegimeMet(cfg, s, i, gate);
      var d := Swept(cfg, s, i, p, due);
      && d.regimeChange == (if cfg.regimeEnabled && regime != s.regime.regime then Some(regime) else None)
      && !d.clamped && d.compound == SweepShown(due, gate, regime, i.sweep)
      && (gate.failed.None? && Unposed(i) && cfg.twapEnabled ==> d.twap == i.twapTick)
      && (gate.failed.None? && Unposed(i) && cfg.oracleEnabled ==>
            i.oracle.Some? && d.oracle == Some(i.oracle.value.tick))
  {
    var gate := CheckPrice(cfg, i, p.spot);
    var regime := RegimeMet(cfg, s, i, gate);
    var changed := cfg.regimeEnabled && EvaluateRegime(cfg, s, i, gate).decision.changed;
    var change := if changed then Some(regime) else None;
    GateTold(cfg, i, p.spot, change);
    SweptKeeps(due, gate, regime, i, BeforeSweep(gate, change));
    MovedIsChanged(cfg, s, i, gate);
  }

  lemma ToldIsRight(cfg: Config, s: KeeperState, i: Inputs, p: Position, w: Winner, caps: Option<ProxyCaps>,
                    armed: bool, due: bool)
    requires cfg.spacing > 0 && armed == Acts(cfg, s, i, w)
    requires armed ==> caps == if cfg.proxied then i.caps else None
    ensures ToldRightly(cfg, s, i, p, w, due, Told(cfg, s, i, p, w, caps, armed, due))
  {
    var gate := CheckPrice(cfg, i, p.spot);
    GateTold(cfg, i, p.spot, None);
    SweptIsRight(cfg, s, i, p, due);
    if (cfg.regimeEnabled || gate.feedHealthy) && !SweepEnded(cfg, s, i, p, due) {
      ActedIsRight(cfg, s, i, p, w, caps, armed, due);
    }
  }

  lemma ActedIsRight(cfg: Config, s: KeeperState, i: Inputs, p: Position, w: Winner, caps: Option<ProxyCaps>,
                     armed: bool, due: bool)
    requires cfg.spacing > 0 && armed == Acts(cfg, s, i, w) && !SweepEnded(cfg, s, i, p, due)
    requires armed ==> caps == if cfg.proxied then i.caps else None
    requires cfg.regimeEnabled || CheckPrice(cfg, i, p.spot).feedHealthy
    ensures var gate := CheckPrice(cfg, i, p.spot); var regime := RegimeMet(cfg, s, i, gate);
      ToldRightly(cfg, s, i, p, w, due, ByActing(cfg, i, p, w, caps, armed, gate, regime,
        BandMultForRegime(regime, cfg.baseHalfWidthMult, cfg.elevatedHalfWidthMult), Swept(cfg, s, i, p, due)))
  {
    var gate := CheckPrice(cfg, i, p.spot); var regime := RegimeMet(cfg, s, i, gate);
    SweptIsRight(cfg, s, i, p, due);
    ActedKeeps(cfg, i, p, w, caps, armed, gate, regime,
      BandMultForRegime(regime, cfg.baseHalfWidthMult, cfg.elevatedHalfWidthMult), Swept(cfg, s, i, p, due));
  }

  lemma MovedIsChanged(cfg: Config, s: KeeperState, i: Inputs, gate: Gate)
    ensures var d := EvaluateRegime(cfg, s, i, gate).decision; d.changed <==> d.regime != s.regime.regime
  {
  }

  lemma ReadyIs(cfg: Config, s: KeeperState, i: Inputs, w: Winner, said: seq<Line>)
    ensures var r := StepCooldown(cfg, StepDwells(s, w, i.now), i, w, said);
      && (r.Ready? && r.armed <==> Acts(cfg, s, i, w))
      && (r.Ready? && r.armed ==> r.caps == if cfg.proxied then i.caps else None)
  {
  }

  lemma DwellShows(f: Fold, cfg: Config, s: KeeperState, i: Inputs, p: Position, w: Winner, due: bool,
                   reason: Decide.Reason)
    requires IsFold(f)
    requires cfg.spacing > 0
    ensures var s1 := StepDwells(s, w, i.now);
      var step := AfterDwell(cfg, s1, i, p, w, due,
                             [Summary(p.spot, p.base, w, due, reason)] + ArmingLines(cfg, s1, w, i.now));
      var d := f(step.report.lines);
      if step.report.gated then ToldRightly(cfg, s, i, p, w, due, d) else d == NOTHING
  {
    var s1 := StepDwells(s, w, i.now);
    var said := [Summary(p.spot, p.base, w, due, reason)] + ArmingLines(cfg, s1, w, i.now);
    var r := StepCooldown(cfg, s1, i, w, said);
    DwellAdds(f, cfg, s1, i, p, w, due, reason);
    ReadyIs(cfg, s, i, w, said);
    if r.Ready? && (r.armed || due) {
      PastCooldownIsGated(cfg, s1, i, p, w, r.caps, r.armed, due, r.lines);
      ToldIgnoresDwell(cfg, s, i, p, w, r.caps, r.armed, due);
      ToldIsRight(cfg, s, i, p, w, r.caps, r.armed, due);
    }
  }

  lemma ToldIgnoresDwell(cfg: Config, s: KeeperState, i: Inputs, p: Position, w: Winner, caps: Option<ProxyCaps>,
                         armed: bool, due: bool)
    requires cfg.spacing > 0
    ensures Told(cfg, StepDwells(s, w, i.now), i, p, w, caps, armed, due) == Told(cfg, s, i, p, w, caps, armed, due)
  {
  }

  /** On every path that got to the gates the record shows how the sweep went, a change of regime, the ticks of gates
      that passed and a walked band as they were; on any other it shows none of them. (A sweep's own text that poses
      as a gate's deviation puts its tick in place of theirs.) */
  lemma RecordShowsTheDetails(cfg: Config, s: KeeperState, i: Inputs)
    requires cfg.spacing > 0
    ensures var d := RecordOf(cfg, s, i).details;
      if GatesReached(cfg, s, i) then
        Seen(cfg, i).Some?
        && ToldRightly(cfg, s, i, i.position.value, Seen(cfg, i).value, CompoundDue(cfg, s, i.now), d)
      else d == NOTHING
  {
    DetailsInIsFold();
    ParsedIsDetailsIn(Evaluate(cfg, s, i).report.lines);
    if Seen(cfg, i).None? {
      PlainAfter(DetailsIn, [], [Failure]);
      assert [] + [Failure] == [Failure];
    } else {
      var p, t := i.position.value, Triggers(cfg, i.position.value);
      DwellShows(DetailsIn, cfg, s, i, p, t.winner, CompoundDue(cfg, s, i.now), t.reason);
    }
  }
}
