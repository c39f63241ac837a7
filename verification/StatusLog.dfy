/** The log read back: one pending cycle folded over the lines of an evaluation, and the outcome
    code its marks resolve to. */
module StatusLog {
  import opened Wrappers
  import opened Ticks
  import opened Regime
  import opened Decide
  import opened Keeper

  datatype FailedAt =
    | AtTwapHistory | AtTwapDev | AtTwapUnavailable | AtSpotUnsafe
    | AtOracleStale | AtOracleDev | AtOracleUnreadable

  /** Which line a failed gate was read from; `Direct` is the regime-off refusal. */
  datatype Via = ViaSkip | ViaCompound | Direct

  datatype GateFail = GateFail(failedAt: FailedAt, via: Via)

  datatype Compound = Compound(allowed: bool, submitted: bool, landed: bool)

  datatype Reads = Reads(spot: int, base: Band)

  datatype Pending = Pending(
    seen: Option<Reads>,
    winner: Option<Winner>,
    reason: Option<Reason>,
    compoundDue: bool,
    armingTrigger: bool,
    armingRefresh: bool,
    armingFold: bool,
    cooldownSkipped: bool,
    pastCooldown: bool,
    twap: Option<int>,
    oracle: Option<int>,
    gateFail: Option<GateFail>,
    regimeChange: Option<Regime>,
    compound: Option<Compound>,
    plan: Option<Plan>,
    clamped: bool,
    tx: Option<Winner>,
    error: bool,
    marks: set<Exit>)

  /** A cycle nothing has been read of yet. */
  const UNREAD := Pending(None, None, None, false, false, false, false, false, false,
                          None, None, None, None, None, None, false, None, false, {})

  function FailedAtFor(r: GateReason): FailedAt
  {
    match r
    case TwapHistory => AtTwapHistory
    case TwapDev(_, _) => AtTwapDev
    case TwapUnavailable => AtTwapUnavailable
    case SpotUnsafe => AtSpotUnsafe
    case OracleStale => AtOracleStale
    case OracleDev(_, _) => AtOracleDev
    case OracleUnreadable => AtOracleUnreadable
  }

  function Mark(p: Pending, e: Exit): Pending
  {
    p.(marks := p.marks + {e}, pastCooldown := true)
  }

  /** The failing deviation's reference tick is the only number a reason carries. */
  function WithGateNumbers(p: Pending, r: GateReason): Pending
  {
    match r
    case TwapDev(tick, _) => p.(twap := Some(tick))
    case OracleDev(tick, _) => p.(oracle := Some(tick))
    case _ => p
  }

  function Submitted(p: Pending): bool { p.compound.Some? && p.compound.value.submitted }

  /** One line of the cycle. The grammar's numbers have no sign: an `arming` or `min interval` line that prints a
      negative number matches none of its patterns and is only touched. */
  function ParseLine(p: Pending, line: Line): Pending
  {
    match line
    case Summary(spot, base, w, due, reason) =>
      p.(seen := Some(Reads(spot, base)), winner := Some(w), reason := Some(reason), compoundDue := due)
    case Failure => p.(error := true)
    case _ => ParseBody(p, line)
  }

  function ParseBody(p: Pending, line: Line): Pending
  {
    match line
    case Summary(_, _, _, _, _) => p
    case Failure => p
    case Arming(leg, held, required) =>
      if held < 0 || required < 0 then p
      else
        (match leg
         case Recenter => p.(armingTrigger := true)
         case Refresh => p.(armingRefresh := true)
         case Fold => p.(armingFold := true)
         case Hold => p)
    case MinInterval(elapsed, required) =>
      if elapsed < 0 || required < 0 then p else p.(cooldownSkipped := true)
    case TwapOk(tick, _) => p.(pastCooldown := true, twap := Some(tick))
    case OracleOk(tick, _, _) => p.(pastCooldown := true, oracle := Some(tick))
    case VolLine => p.(pastCooldown := true)
    case Noise => p
    case RegimeChanged(r) => p.(pastCooldown := true, regimeChange := Some(r))
    case RegimeElevated => p.(pastCooldown := true)
    case NoRegimeFeed => Mark(p, ExitNoRegimeFeed).(gateFail := Some(GateFail(AtOracleUnreadable, Direct)))
    case CompoundSkipped(why) =>
      var p := p.(pastCooldown := true);
      (match why
       case GateSkip(r) =>
         WithGateNumbers(p.(gateFail := Some(GateFail(FailedAtFor(r), ViaCompound)),
                            compound := Some(Compound(false, false, false))), r)
       case RegimeSkip(_) => p.(compound := Some(Compound(false, false, false)))
       case OtherSkip => p.(compound := Some(Compound(true, Submitted(p), false))))
    case CompoundInfo => p.(pastCooldown := true, compound := Some(Compound(true, Submitted(p), false)))
    case CompoundSubmitted => p.(pastCooldown := true, compound := Some(Compound(true, true, false)))
    case Compounded => p.(pastCooldown := true, compound := Some(Compound(true, Submitted(p), true)))
    case SkipExtreme => Mark(p, ExitRegimeExtreme)
    case SkipGas => Mark(p, ExitGasFloor)
    case ClampWalk => p.(pastCooldown := true, clamped := true)
    case SkipTranslation => Mark(p, ExitClampUnworkable)
    case SkipWidth => Mark(p, ExitWidthCap)
    case PreflightRevertLine => Mark(p, ExitPreflightRevert)
    case PlanLine(plan) => p.(pastCooldown := true, plan := Some(plan))
    case DryRunLine => Mark(p, ExitDryRun)
    case Submitting => p.(pastCooldown := true)
    case LandedLine(kind) => Mark(p, ExitLanded).(tx := Some(kind))
    case SkipGate(r) =>
      WithGateNumbers(Mark(p, ExitGateBlocked).(gateFail := Some(GateFail(FailedAtFor(r), ViaSkip))), r)
  }

  function ParseAll(p: Pending, lines: seq<Line>): Pending
  {
    if lines == [] then p else ParseLine(ParseAll(p, lines[..|lines| - 1]), lines[|lines| - 1])
  }

  // --- the record -----------------------------------------------------------------------

  datatype GateRecord = GateRecord(ok: bool, failedAt: Option<FailedAt>, via: Option<Via>)

  /** What else was printed: how the sweep went, a change of regime, a band walked short of its target, and the
      average's and the feed's ticks. */
  datatype Details = Details(
    compound: Option<Compound>,
    regimeChange: Option<Regime>,
    clamped: bool,
    twap: Option<int>,
    oracle: Option<int>)

  datatype CycleRecord = CycleRecord(
    code: Exit,
    winner: Option<Winner>,
    seen: Option<Reads>,
    compoundDue: bool,
    gate: Option<GateRecord>,
    plan: Option<Plan>,
    tx: Option<Winner>,
    details: Details)

  function ArmingFor(p: Pending, w: Winner): bool
  {
    match w
    case Recenter => p.armingTrigger
    case Refresh => p.armingRefresh
    case Fold => p.armingFold
    case Hold => false
  }

  /** Armed: a trigger won the summary line and no `arming` line for it followed. */
  predicate Armed(p: Pending)
  {
    p.winner.Some? && p.winner.value != Hold && !ArmingFor(p, p.winner.value)
  }

  predicate GateEvaluated(p: Pending)
  {
    || p.pastCooldown || p.gateFail.Some? || p.twap.Some? || p.oracle.Some? || p.compoundDue
    || (Armed(p) && !p.cooldownSkipped)
  }

  function GateOf(p: Pending): Option<GateRecord>
  {
    if !GateEvaluated(p) then None
    else if p.gateFail.None? then Some(GateRecord(true, None, None))
    else Some(GateRecord(false, Some(p.gateFail.value.failedAt), Some(p.gateFail.value.via)))
  }

  /** Precedence of what was printed: a thrown cycle is an error whatever else it said, a landing
      beats every skip, the armed path's exits beat compound-only, which beats what came before it. */
  function Classify(p: Pending, gate: Option<GateRecord>): Exit
  {
    if p.error then ExitError
    else if ExitLanded in p.marks || p.tx.Some? then ExitLanded
    else if ExitPreflightRevert in p.marks then ExitPreflightRevert
    else if ExitDryRun in p.marks then ExitDryRun
    else if ExitWidthCap in p.marks then ExitWidthCap
    else if ExitClampUnworkable in p.marks then ExitClampUnworkable
    else if ExitGasFloor in p.marks then ExitGasFloor
    else if ExitRegimeExtreme in p.marks then ExitRegimeExtreme
    else if ExitGateBlocked in p.marks || (gate.Some? && !gate.value.ok && gate.value.via == Some(ViaSkip))
    then ExitGateBlocked
    else if ExitNoRegimeFeed in p.marks then ExitNoRegimeFeed
    else if p.compoundDue then ExitCompoundOnly
    else if p.cooldownSkipped then ExitCooldown
    else if p.armingTrigger || p.armingRefresh || p.armingFold then ExitArming
    else ExitHold
  }

  function Finalize(p: Pending): CycleRecord
  {
    CycleRecord(Classify(p, GateOf(p)), p.winner, p.seen, p.compoundDue, GateOf(p), p.plan, p.tx,
                Details(p.compound, p.regimeChange, p.clamped, p.twap, p.oracle))
  }

  // --- standing: the run of equal outcomes --------------------------------------------------

  datatype StandingKey = StandingKey(code: Exit, subcode: Option<FailedAt>)

  datatype Standing = Standing(key: StandingKey, sinceTs: int, seqNo: nat)

  /** A compound-only cycle whose gate failed counts as gate-blocked. */
  function StandingOf(rec: CycleRecord): StandingKey
  {
    var subcode := if rec.gate.Some? && !rec.gate.value.ok then rec.gate.value.failedAt else None;
    StandingKey(if rec.code == ExitCompoundOnly && subcode.Some? then ExitGateBlocked else rec.code, subcode)
  }

  // --- one vault's slot in the status instance ----------------------------------------------

  /** The cycle being read: the block it is about, when that block was, and what has been read. */
  datatype Cycle = Cycle(block: nat, blockTs: int, touched: bool, read: Pending)

  datatype Slot = Slot(pending: Option<Cycle>, records: seq<CycleRecord>, standing: Option<Standing>)

  function Emit(s: Slot, c: Cycle): Slot
  {
    var rec := Finalize(c.read);
    var n := |s.records| + 1;
    Slot(None, s.records + [rec],
      if s.standing.Some? && s.standing.value.key == StandingOf(rec) then s.standing
      else Some(Standing(StandingOf(rec), c.blockTs, n)))
  }

  function OpenSlot(s: Slot, block: nat, blockTs: int): Slot
  {
    (if s.pending.Some? && s.pending.value.touched && s.pending.value.block != block
     then Emit(s, s.pending.value) else s)
      .(pending := Some(Cycle(block, blockTs, false, UNREAD)))
  }

  /** A line printed while `block` was evaluated; only the summary and failure lines carry its number. */
  function LineSlot(s: Slot, block: nat, line: Line, wallTs: int): Slot
  {
    if line.Summary? || line.Failure? then
      var s := if s.pending.Some? && s.pending.value.block == block then s else OpenSlot(s, block, wallTs);
      s.(pending := Some(s.pending.value.(touched := true, read := ParseLine(s.pending.value.read, line))))
    else if s.pending.None? then s
    else s.(pending := Some(s.pending.value.(touched := true, read := ParseLine(s.pending.value.read, line))))
  }

  function EndSlot(s: Slot): Slot
  {
    if s.pending.Some? && s.pending.value.touched then Emit(s, s.pending.value) else s.(pending := None)
  }

  /** The slot as the listener keeps it: lines arrive one at a time, records are numbered from 1. */
  class VaultSlot {
    var pending: Option<Cycle>
    var records: seq<CycleRecord>
    var standing: Option<Standing>

    function View(): Slot
      reads this
    {
      Slot(pending, records, standing)
    }

    constructor ()
      ensures View() == Slot(None, [], None)
    {
      pending, records, standing := None, [], None;
    }

    method FinalizeCycle(c: Cycle)
      modifies this
      ensures View() == Emit(old(View()), c)
    {
      var rec := Finalize(c.read);
      records := records + [rec];
      var key := StandingOf(rec);
      if standing.None? || standing.value.key != key {
        standing := Some(Standing(key, c.blockTs, |records|));
      }
      pending := None;
    }

    method OpenCycle(block: nat, blockTs: int)
      modifies this
      ensures View() == OpenSlot(old(View()), block, blockTs)
    {
      if pending.Some? && pending.value.touched && pending.value.block != block {
        FinalizeCycle(pending.value);
      }
      pending := Some(Cycle(block, blockTs, false, UNREAD));
    }

    method OnLine(block: nat, line: Line, wallTs: int)
      modifies this
      ensures View() == LineSlot(old(View()), block, line, wallTs)
    {
      if line.Summary? || line.Failure? {
        if pending.None? || pending.value.block != block { OpenCycle(block, wallTs); }
      } else if pending.None? {
        return;
      }
      pending := Some(pending.value.(touched := true, read := ParseLine(pending.value.read, line)));
    }

    method OnCycleEnd()
      modifies this
      ensures View() == EndSlot(old(View()))
    {
      if pending.Some? && pending.value.touched { FinalizeCycle(pending.value); } else { pending := None; }
    }
  }
}
