/** The dashboard's record intake: per-boot cursors fed by the stream, by catch-up pages and by status
    polls, the raw table, the thinned log and the episodes. Rows are kept per vault; boots are the
    instants of their stamps. */
module Ingest {
  import opened Wrappers
  import R = Regime
  import K = Keeper
  import S = StatusLog

  // ------------------------------------------------------------------ records and rows

  datatype CompoundPart = CompoundPart(allowed: bool, submitted: Option<string>, landed: bool)

  datatype Record = Record(
    vault: string,
    boot: int,
    no: int,
    blockTs: int,
    cycle: S.CycleRecord,
    armedTrigger: bool,
    armedRefresh: bool,
    armedFold: bool,
    regime: Option<R.Regime>,
    compound: Option<CompoundPart>,
    txHash: Option<string>,
    detail: string)

  datatype CompoundResult = CompoundLanded | CompoundSubmitted | CompoundAllowed | CompoundSkipped

  /** The projected columns the transition rule looks at. */
  datatype Row = Row(
    code: K.Exit,
    winner: K.Winner,
    armedMask: nat,
    gateOk: Option<bool>,
    gateFailedAt: Option<S.FailedAt>,
    regime: Option<R.Regime>,
    compound: Option<CompoundResult>,
    txHash: Option<string>,
    error: Option<string>)

  function ArmedMask(rec: Record): nat
  {
    (if rec.armedTrigger then 1 else 0) + (if rec.armedRefresh then 2 else 0) + (if rec.armedFold then 4 else 0)
  }

  function ResultOf(c: CompoundPart): CompoundResult
  {
    if c.landed then CompoundLanded
    else if c.submitted.Some? then CompoundSubmitted
    else if c.allowed then CompoundAllowed
    else CompoundSkipped
  }

  function RowOf(rec: Record): Row
  {
    Row(rec.cycle.code,
        if rec.cycle.winner.Some? then rec.cycle.winner.value else K.Hold,
        ArmedMask(rec),
        if rec.cycle.gate.Some? then Some(rec.cycle.gate.value.ok) else None,
        if rec.cycle.gate.Some? then rec.cycle.gate.value.failedAt else None,
        rec.regime,
        if rec.compound.Some? then Some(ResultOf(rec.compound.value)) else None,
        if rec.txHash.Some? then rec.txHash else if rec.compound.Some? then rec.compound.value.submitted else None,
        if rec.cycle.code == K.ExitError then Some(rec.detail) else None)
  }

  predicate IsDigit(c: char) { '0' <= c <= '9' }

  predicate IsHexDigit(c: char) { IsDigit(c) || 'a' <= c <= 'f' || 'A' <= c <= 'F' }

  function DropDigits(s: string): (r: string)
    ensures |r| <= |s|
  {
    if s != "" && IsDigit(s[0]) then DropDigits(s[1..]) else s
  }

  function DropHexDigits(s: string): (r: string)
    ensures |r| <= |s|
  {
    if s != "" && IsHexDigit(s[0]) then DropHexDigits(s[1..]) else s
  }

  /** An error text with every number, decimal or hexadecimal, replaced by one mark. */
  function Blurred(text: string): string
    decreases |text|
  {
    if text == "" then ""
    else if |text| > 2 && text[0] == '0' && text[1] == 'x' && IsHexDigit(text[2]) then
      "#" + Blurred(DropHexDigits(text[3..]))
    else if IsDigit(text[0]) then "#" + Blurred(DropDigits(text[1..]))
    else [text[0]] + Blurred(text[1..])
  }

  function ShapeOf(error: Option<string>): Option<string>
  {
    match error case None => None case Some(text) => Some(Blurred(text))
  }

  predicate IsTransition(prev: Option<Row>, cur: Row)
  {
    || prev.None?
    || prev.value.code != cur.code
    || prev.value.winner != cur.winner
    || prev.value.armedMask != cur.armedMask
    || prev.value.gateOk != cur.gateOk
    || prev.value.gateFailedAt != cur.gateFailedAt
    || prev.value.regime != cur.regime
    || prev.value.compound != cur.compound
    || prev.value.txHash != cur.txHash
    || ShapeOf(prev.value.error) != ShapeOf(cur.error)
  }

  /** Two records look the same on the dashboard. */
  function Look(rec: Record): Row
  {
    RowOf(rec).(error := ShapeOf(RowOf(rec).error))
  }

  lemma SameLookIsNoTransition(a: Record, b: Record)
    ensures IsTransition(Some(RowOf(a)), RowOf(b)) <==> Look(a) != Look(b)
  {
  }

  /** The mask has a bit for each dwell that is armed. */
  lemma MaskBits(rec: Record)
    ensures ArmedMask(rec) < 8
    ensures ArmedMask(rec) % 2 == 1 <==> rec.armedTrigger
    ensures ArmedMask(rec) / 2 % 2 == 1 <==> rec.armedRefresh
    ensures ArmedMask(rec) / 4 % 2 == 1 <==> rec.armedFold
  {
  }

  /** How far a sweep got. */
  function Reached(rec: Record): (bool, bool, bool, bool)
  {
    match rec.compound
    case None => (false, false, false, false)
    case Some(c) =>
      (true, c.landed, !c.landed && c.submitted.Some?, !c.landed && c.submitted.None? && c.allowed)
  }

  predicate NoTrigger(rec: Record)
  {
    rec.cycle.winner == None || rec.cycle.winner == Some(K.Hold)
  }

  /** Two records look alike exactly when they tell the same of the outcome, the trigger, each dwell armed, the
      gate, the regime, how far a sweep got, the transaction and, up to its numbers, the error. */
  lemma LooksAlikeExactly(a: Record, b: Record)
    ensures Look(a) == Look(b) <==>
      && a.cycle.code == b.cycle.code
      && (a.cycle.winner == b.cycle.winner || (NoTrigger(a) && NoTrigger(b)))
      && a.armedTrigger == b.armedTrigger && a.armedRefresh == b.armedRefresh && a.armedFold == b.armedFold
      && (a.cycle.gate.Some? <==> b.cycle.gate.Some?)
      && (a.cycle.gate.Some? ==>
            && a.cycle.gate.value.ok == b.cycle.gate.value.ok
            && a.cycle.gate.value.failedAt == b.cycle.gate.value.failedAt)
      && a.regime == b.regime && Reached(a) == Reached(b) && HashOf(a) == HashOf(b)
      && (a.cycle.code == K.ExitError ==> Blurred(a.detail) == Blurred(b.detail))
  {
  }

  /** The transaction a record names: the rebalance's own, or else the sweep's. */
  function HashOf(rec: Record): Option<string>
  {
    if rec.txHash.Some? then rec.txHash else if rec.compound.Some? then rec.compound.value.submitted else None
  }

  predicate NoDigits(text: string)
  {
    forall k :: 0 <= k < |text| ==> !IsDigit(text[k])
  }

  predicate AllDigits(text: string)
  {
    forall k :: 0 <= k < |text| ==> IsDigit(text[k])
  }

  predicate AllHexDigits(text: string)
  {
    forall k :: 0 <= k < |text| ==> IsHexDigit(text[k])
  }

  /** Words stay as they are, wherever the numbers after them begin. */
  lemma {:induction false} WordsStay(words: string, text: string)
    requires NoDigits(words)
    ensures Blurred(words + text) == words + Blurred(text)
  {
    if words == "" {
      assert words + text == text;
    } else {
      assert (words + text)[1..] == words[1..] + text;
      WordsStay(words[1..], text);
    }
  }

  lemma {:induction false} DigitsDrop(digits: string, text: string)
    requires AllDigits(digits) && (text == "" || !IsDigit(text[0]))
    ensures DropDigits(digits + text) == text
  {
    if digits == "" {
      assert digits + text == text;
    } else {
      assert (digits + text)[1..] == digits[1..] + text;
      DigitsDrop(digits[1..], text);
    }
  }

  lemma {:induction false} HexDigitsDrop(digits: string, text: string)
    requires AllHexDigits(digits) && (text == "" || !IsHexDigit(text[0]))
    ensures DropHexDigits(digits + text) == text
  {
    if digits == "" {
      assert digits + text == text;
    } else {
      assert (digits + text)[1..] == digits[1..] + text;
      HexDigitsDrop(digits[1..], text);
    }
  }

  /** A whole number becomes one mark, whatever it is. */
  lemma NumberIsMarked(digits: string, text: string)
    requires digits != "" && AllDigits(digits) && (text == "" || !IsDigit(text[0]))
    requires digits == "0" ==> text == "" || text[0] != 'x'
    ensures Blurred(digits + text) == "#" + Blurred(text)
  {
    assert (digits + text)[1..] == digits[1..] + text;
    DigitsDrop(digits[1..], text);
    assert |digits| > 1 ==> (digits + text)[1] == digits[1];
  }

  /** So does a hexadecimal one, prefix and all. */
  lemma HexIsMarked(digits: string, text: string)
    requires digits != "" && AllHexDigits(digits) && (text == "" || !IsHexDigit(text[0]))
    ensures Blurred("0x" + digits + text) == "#" + Blurred(text)
  {
    assert ("0x" + digits + text)[3..] == digits[1..] + text;
    HexDigitsDrop(digits[1..], text);
    assert ("0x" + digits + text)[2] == digits[0];
  }

  // ------------------------------------------------------------------ tables of one vault

  const HEARTBEAT_SECS := 300

  datatype Cursor = Cursor(boot: int, no: int)

  datatype Stored = Stored(rec: Record, transition: bool)

  datatype Episode = Episode(
    key: S.StandingKey, since: int, until: Option<int>, firstNo: int, lastNo: int, cycles: nat, detail: string)

  /** One vault: cursor, the two in-memory columns, and its rows in the three tables. */
  datatype Column = Column(
    cursor: Option<Cursor>,
    lastRow: Option<Row>,
    lastStoredTs: Option<int>,
    raw: seq<Record>,
    stored: seq<Stored>,
    episodes: seq<Episode>)

  const EMPTY := Column(None, None, None, [], [], [])

  predicate Holds(raw: seq<Record>, boot: int, no: int)
  {
    exists k :: 0 <= k < |raw| && raw[k].boot == boot && raw[k].no == no
  }

  function Opened(rec: Record): Episode
  {
    Episode(S.StandingOf(rec.cycle), rec.blockTs, None, rec.no, rec.no, 1, rec.detail)
  }

  function OpenAt(eps: seq<Episode>): (r: Option<nat>)
    ensures r.Some? ==> r.value < |eps| && eps[r.value].until.None?
  {
    if eps == [] then None
    else if eps[0].until.None? then Some(0)
    else match OpenAt(eps[1..]) case None => None case Some(i) => Some(i + 1)
  }

  function Advance(eps: seq<Episode>, rec: Record): seq<Episode>
  {
    match OpenAt(eps)
    case None => eps + [Opened(rec)]
    case Some(i) =>
      if eps[i].key == S.StandingOf(rec.cycle) then
        eps[i := eps[i].(lastNo := rec.no, cycles := eps[i].cycles + 1, detail := rec.detail)]
      else eps[i := eps[i].(until := Some(rec.blockTs))] + [Opened(rec)]
  }

  /** A first sighting: raw row, thinned row when it is a transition or a heartbeat is due, episode. */
  function Enter(c: Column, rec: Record): Column
  {
    var transition := IsTransition(c.lastRow, RowOf(rec));
    var heartbeat := c.lastStoredTs.None? || rec.blockTs - c.lastStoredTs.value >= HEARTBEAT_SECS;
    c.(raw := c.raw + [rec],
       stored := if transition || heartbeat then c.stored + [Stored(rec, transition)] else c.stored,
       lastStoredTs := if transition || heartbeat then Some(rec.blockTs) else c.lastStoredTs,
       lastRow := Some(RowOf(rec)),
       episodes := Advance(c.episodes, rec))
  }

  function CursorNo(c: Column, boot: int): int
  {
    if c.cursor.Some? && c.cursor.value.boot == boot then c.cursor.value.no else 0
  }

  /** A record of the boot being followed: at or below the cursor it is a duplicate; above it the
      cursor moves, and the raw table's unique key has the last word. */
  function Take(c: Column, rec: Record): Column
  {
    if rec.no <= CursorNo(c, rec.boot) then c
    else
      var c := c.(cursor := Some(Cursor(rec.boot, rec.no)));
      if Holds(c.raw, rec.boot, rec.no) then c else Enter(c, rec)
  }

  /** The in-memory columns read back from the tables when they are missing. */
  function Warm(c: Column): Column
  {
    if c.lastRow.Some? then c
    else
      c.(lastRow := if c.raw != [] then Some(RowOf(c.raw[|c.raw| - 1]))
                    else if c.stored != [] then Some(RowOf(c.stored[|c.stored| - 1].rec))
                    else None,
         lastStoredTs := if c.stored != [] then Some(c.stored[|c.stored| - 1].rec.blockTs) else c.lastStoredTs)
  }

  // ------------------------------------------------------------------ the collector

  datatype Desk = Desk(boot: Option<int>, columns: map<string, Column>)

  function ColumnAt(d: Desk, vault: string): Column
  {
    if vault in d.columns then d.columns[vault] else EMPTY
  }

  /** A different boot: every cursor drops to zero. */
  function Rebooted(d: Desk, boot: int): Desk
  {
    if d.boot == Some(boot) then d
    else Desk(Some(boot), map v | v in d.columns :: d.columns[v].(cursor := Some(Cursor(boot, 0))))
  }

  predicate Accepts(d: Desk, boot: int)
  {
    d.boot.None? || boot >= d.boot.value
  }

  function Ingested(d: Desk, rec: Record): Desk
  {
    if !Accepts(d, rec.boot) then d
    else
      var d := Rebooted(d, rec.boot);
      d.(columns := d.columns[rec.vault := Take(Warm(ColumnAt(d, rec.vault)), rec)])
  }

  function Listed(c: Column, boot: int): Column
  {
    Warm(if c.cursor.None? then c.(cursor := Some(Cursor(boot, 0))) else c)
  }

  function AllListed(d: Desk, boot: int, vaults: seq<string>): Desk
  {
    if vaults == [] then d
    else
      var d := AllListed(d, boot, vaults[..|vaults| - 1]);
      var v := vaults[|vaults| - 1];
      d.(columns := d.columns[v := Listed(ColumnAt(d, v), boot)])
  }

  /** A status body: its boot is taken as it is, older or newer. */
  function Polled(d: Desk, boot: int, vaults: seq<string>): Desk
  {
    AllListed(Rebooted(d, boot), boot, vaults)
  }

  function Cold(c: Column): Column
  {
    c.(lastRow := None, lastStoredTs := None)
  }

  /** A process restart: boot and cursors come back from meta, the in-memory columns from the tables. */
  function Restarted(d: Desk): Desk
  {
    d.(columns := map v | v in d.columns :: Warm(Cold(d.columns[v])))
  }

  datatype Event =
    | Arrived(rec: Record)
    | Status(boot: int, vaults: seq<string>)
    | FrameId(boot: int)
    | Restart

  function Next(d: Desk, e: Event): Desk
  {
    match e
    case Arrived(rec) => Ingested(d, rec)
    case Status(boot, vaults) => Polled(d, boot, vaults)
    case FrameId(boot) => if d.boot.Some? && boot > d.boot.value then Rebooted(d, boot) else d
    case Restart => Restarted(d)
  }

  function Run(events: seq<Event>): Desk
  {
    if events == [] then Desk(None, map[]) else Next(Run(events[..|events| - 1]), events[|events| - 1])
  }

  // ------------------------------------------------------------------ what the tables mean

  /** No record twice. */
  predicate Distinct(raw: seq<Record>)
  {
    forall i, j :: 0 <= i < j < |raw| ==> raw[i].boot != raw[j].boot || raw[i].no != raw[j].no
  }

  /** An episode tells a run of records that share one standing. */
  predicate Tells(e: Episode, run: seq<Record>)
  {
    && run != [] && e.cycles == |run|
    && (forall k :: 0 <= k < |run| ==> S.StandingOf(run[k].cycle) == e.key)
    && e.since == run[0].blockTs && e.firstNo == run[0].no
    && e.lastNo == run[|run| - 1].no && e.detail == run[|run| - 1].detail
  }

  /** The episodes are the run-length encoding of the records: maximal runs of one standing, each
      closed at the block time of the record that ended it, the last one open. */
  predicate Encodes(eps: seq<Episode>, recs: seq<Record>)
    decreases |eps|
  {
    if eps == [] then recs == []
    else
      var n := eps[0].cycles;
      && 1 <= n <= |recs|
      && Tells(eps[0], recs[..n])
      && eps[0].until == (if n == |recs| then None else Some(recs[n].blockTs))
      && (n < |recs| ==> S.StandingOf(recs[n].cycle) != eps[0].key)
      && Encodes(eps[1..], recs[n..])
  }

  predicate LooksNew(recs: seq<Record>, k: nat)
    requires k < |recs|
  {
    k == 0 || Look(recs[k - 1]) != Look(recs[k])
  }

  /** The thinned log: a record left out looks like the latest one stored and is less than a
      heartbeat younger; a record kept says whether it changed the look. */
  predicate Thins(stored: seq<Stored>, recs: seq<Record>)
    decreases |recs|
  {
    if recs == [] then stored == []
    else
      var n := |recs| - 1;
      && stored != []
      && var top := stored[|stored| - 1];
         if top.rec == recs[n] then top.transition == LooksNew(recs, n) && Thins(stored[..|stored| - 1], recs[..n])
         else
           && Look(top.rec) == Look(recs[n])
           && recs[n].blockTs - top.rec.blockTs < HEARTBEAT_SECS
           && Thins(stored, recs[..n])
  }

  predicate InMemory(c: Column)
  {
    && c.lastRow == (if c.raw == [] then None else Some(RowOf(c.raw[|c.raw| - 1])))
    && c.lastStoredTs == (if c.stored == [] then None else Some(c.stored[|c.stored| - 1].rec.blockTs))
  }

  /** The cursor points at a record the table holds, or at the start of the boot. */
  predicate CursorHeld(c: Column)
  {
    c.cursor.Some? ==> c.cursor.value.no == 0 || Holds(c.raw, c.cursor.value.boot, c.cursor.value.no)
  }

  predicate Booked(c: Column)
  {
    Distinct(c.raw) && Encodes(c.episodes, c.raw) && Thins(c.stored, c.raw) && InMemory(c)
  }

  predicate Sound(c: Column)
  {
    Booked(c) && CursorHeld(c)
  }

  predicate AllSound(d: Desk)
  {
    forall v :: v in d.columns ==>
      Sound(d.columns[v]) && (d.columns[v].cursor.Some? ==> Some(d.columns[v].cursor.value.boot) == d.boot)
  }

  // ------------------------------------------------------------------ episodes

  lemma OneRecord(rec: Record)
    ensures Encodes([Opened(rec)], [rec])
  {
    assert [rec][..1] == [rec] && [rec][1..] == [];
    assert [Opened(rec)][1..] == [];
  }

  lemma NothingEncodesNothing(eps: seq<Episode>)
    requires Encodes(eps, [])
    ensures eps == []
  {
  }

  lemma RunGrows(e: Episode, run: seq<Record>, rec: Record)
    requires Tells(e, run) && e.key == S.StandingOf(rec.cycle)
    ensures Tells(e.(lastNo := rec.no, cycles := e.cycles + 1, detail := rec.detail), run + [rec])
  {
    var run' := run + [rec];
    assert forall k :: 0 <= k < |run| ==> run'[k] == run[k];
  }

  lemma LastRunGrows(e: Episode, recs: seq<Record>, rec: Record)
    requires Encodes([e], recs) && e.until.None? && e.key == S.StandingOf(rec.cycle)
    ensures Encodes([e.(lastNo := rec.no, cycles := e.cycles + 1, detail := rec.detail)], recs + [rec])
  {
    var e' := e.(lastNo := rec.no, cycles := e.cycles + 1, detail := rec.detail);
    assert e.cycles == |recs|;
    assert recs[..|recs|] == recs;
    RunGrows(e, recs, rec);
    assert (recs + [rec])[..|recs| + 1] == recs + [rec];
    assert [e'][1..] == [];
  }

  lemma LastRunEnds(e: Episode, recs: seq<Record>, rec: Record)
    requires Encodes([e], recs) && e.until.None? && e.key != S.StandingOf(rec.cycle)
    ensures Encodes([e.(until := Some(rec.blockTs)), Opened(rec)], recs + [rec])
  {
    var e' := e.(until := Some(rec.blockTs));
    assert e.cycles == |recs|;
    assert recs[..|recs|] == recs;
    assert (recs + [rec])[..|recs|] == recs && (recs + [rec])[|recs|..] == [rec];
    assert [e', Opened(rec)][1..] == [Opened(rec)];
    OneRecord(rec);
  }

  lemma RunsRemain(e: Episode, eps: seq<Episode>, recs: seq<Record>)
    requires Encodes([e] + eps, recs) && eps != []
    ensures e.cycles < |recs| && Encodes(eps, recs[e.cycles..])
  {
    assert ([e] + eps)[1..] == eps;
    assert |recs[e.cycles..]| == |recs| - e.cycles;
  }

  lemma LaterRuns(e: Episode, eps: seq<Episode>, eps': seq<Episode>, recs: seq<Record>, rec: Record)
    requires Encodes([e] + eps, recs) && eps != []
    requires Encodes(eps', recs[e.cycles..] + [rec])
    ensures Encodes([e] + eps', recs + [rec])
  {
    var n := e.cycles;
    assert ([e] + eps)[1..] == eps;
    RunsRemain(e, eps, recs);
    assert (recs + [rec])[..n] == recs[..n] && (recs + [rec])[n..] == recs[n..] + [rec];
    assert ([e] + eps')[1..] == eps';
  }

  lemma AdvanceLater(e: Episode, eps: seq<Episode>, rec: Record)
    requires e.until.Some?
    ensures Advance([e] + eps, rec) == [e] + Advance(eps, rec)
  {
    assert ([e] + eps)[1..] == eps;
  }

  /** One more record keeps the encoding: the open run grows, or closes and a new one opens. */
  lemma {:induction false} AdvanceEncodes(eps: seq<Episode>, recs: seq<Record>, rec: Record)
    requires Encodes(eps, recs)
    ensures Encodes(Advance(eps, rec), recs + [rec])
    decreases |eps|
  {
    if eps == [] {
      OneRecord(rec);
      assert [] + [rec] == [rec];
    } else {
      var e, later := eps[0], eps[1..];
      assert eps == [e] + later;
      if later == [] {
        AdvanceOnlyRun(e, recs, rec);
      } else {
        var n := e.cycles;
        RunsRemain(e, later, recs);
        AdvanceEncodes(later, recs[n..], rec);
        AdvanceLater(e, later, rec);
        LaterRuns(e, later, Advance(later, rec), recs, rec);
      }
    }
  }

  lemma AdvanceOnlyRun(e: Episode, recs: seq<Record>, rec: Record)
    requires Encodes([e], recs)
    ensures Encodes(Advance([e], rec), recs + [rec])
  {
    assert [e][1..] == [];
    assert recs[e.cycles..] == [];
    assert e.until.None?;
    if e.key == S.StandingOf(rec.cycle) {
      LastRunGrows(e, recs, rec);
    } else {
      LastRunEnds(e, recs, rec);
    }
  }

  function TotalCycles(eps: seq<Episode>): nat
  {
    if eps == [] then 0 else eps[0].cycles + TotalCycles(eps[1..])
  }

  /** What an encoding gives its readers: one open episode once there is a record, and only the last;
      neighbours touch and differ; the cycle counts add up to the records. */
  lemma {:induction false} EpisodesAddUp(eps: seq<Episode>, recs: seq<Record>)
    requires Encodes(eps, recs)
    ensures TotalCycles(eps) == |recs|
    ensures eps == [] <==> recs == []
    ensures forall i :: 0 <= i < |eps| ==> (eps[i].until.None? <==> i == |eps| - 1)
    ensures eps != [] ==> eps[0].since == recs[0].blockTs && eps[0].key == S.StandingOf(recs[0].cycle)
    ensures forall i :: 0 < i < |eps| ==> eps[i - 1].until == Some(eps[i].since) && eps[i - 1].key != eps[i].key
    decreases |eps|
  {
    if eps != [] {
      var n := eps[0].cycles;
      EpisodesAddUp(eps[1..], recs[n..]);
      assert recs[..n][0] == recs[0];
      if n == |recs| {
        assert recs[n..] == [];
        NothingEncodesNothing(eps[1..]);
      }
      forall i | 0 < i < |eps| ensures eps[i - 1].until == Some(eps[i].since) && eps[i - 1].key != eps[i].key {
        assert eps[i] == eps[1..][i - 1];
        if i > 1 { assert eps[i - 1] == eps[1..][i - 2]; }
      }
    }
  }

  // ------------------------------------------------------------------ the thinned log

  lemma ThinsKeeps(c: Column, rec: Record, transition: bool)
    requires Thins(c.stored, c.raw) && Distinct(c.raw + [rec])
    requires transition == LooksNew(c.raw + [rec], |c.raw|)
    ensures Thins(c.stored + [Stored(rec, transition)], c.raw + [rec])
  {
    var stored, recs := c.stored + [Stored(rec, transition)], c.raw + [rec];
    assert stored[..|stored| - 1] == c.stored && recs[..|recs| - 1] == c.raw;
  }

  lemma {:induction false} StoredAreRaw(stored: seq<Stored>, recs: seq<Record>, i: nat)
    requires Thins(stored, recs) && i < |stored|
    ensures stored[i].rec in recs
    decreases |recs|
  {
    var n := |recs| - 1;
    if stored[|stored| - 1].rec == recs[n] {
      if i < |stored| - 1 { StoredAreRaw(stored[..|stored| - 1], recs[..n], i); }
    } else {
      StoredAreRaw(stored, recs[..n], i);
    }
  }

  /** The latest stored row looks like the latest record. */
  lemma {:induction false} LatestStoredLooks(stored: seq<Stored>, recs: seq<Record>)
    requires Thins(stored, recs) && recs != []
    ensures stored != [] && Look(stored[|stored| - 1].rec) == Look(recs[|recs| - 1])
  {
  }

  lemma ThinsSkips(c: Column, rec: Record)
    requires Thins(c.stored, c.raw) && c.raw != [] && rec !in c.raw
    requires Look(c.raw[|c.raw| - 1]) == Look(rec)
    requires c.stored != [] && rec.blockTs - c.stored[|c.stored| - 1].rec.blockTs < HEARTBEAT_SECS
    ensures Thins(c.stored, c.raw + [rec])
  {
    var recs := c.raw + [rec];
    assert recs[..|recs| - 1] == c.raw;
    LatestStoredLooks(c.stored, c.raw);
    StoredAreRaw(c.stored, c.raw, |c.stored| - 1);
  }

  lemma NewIsDistinct(raw: seq<Record>, rec: Record)
    requires Distinct(raw) && !Holds(raw, rec.boot, rec.no)
    ensures Distinct(raw + [rec]) && rec !in raw
  {
  }

  /** Whether the next record is stored. */
  predicate Keeps(c: Column, rec: Record)
  {
    IsTransition(c.lastRow, RowOf(rec)) || c.lastStoredTs.None? || rec.blockTs - c.lastStoredTs.value >= HEARTBEAT_SECS
  }

  lemma EnterStores(c: Column, rec: Record)
    ensures Enter(c, rec).stored ==
      if Keeps(c, rec) then c.stored + [Stored(rec, IsTransition(c.lastRow, RowOf(rec)))] else c.stored
  {
  }

  lemma TransitionIsNewLook(c: Column, rec: Record)
    requires InMemory(c)
    ensures IsTransition(c.lastRow, RowOf(rec)) == LooksNew(c.raw + [rec], |c.raw|)
  {
    if c.raw != [] {
      var last := c.raw[|c.raw| - 1];
      SameLookIsNoTransition(last, rec);
      assert (c.raw + [rec])[|c.raw| - 1] == last;
    }
  }

  lemma UnkeptLooksTheSame(c: Column, rec: Record)
    requires Booked(c) && !Keeps(c, rec)
    ensures c.raw != [] && c.stored != [] && Look(c.raw[|c.raw| - 1]) == Look(rec)
    ensures rec.blockTs - c.stored[|c.stored| - 1].rec.blockTs < HEARTBEAT_SECS
  {
    if c.raw != [] {
      SameLookIsNoTransition(c.raw[|c.raw| - 1], rec);
    }
  }

  lemma EnterThins(c: Column, rec: Record)
    requires Booked(c) && !Holds(c.raw, rec.boot, rec.no)
    ensures Thins(Enter(c, rec).stored, c.raw + [rec])
  {
    NewIsDistinct(c.raw, rec);
    EnterStores(c, rec);
    if Keeps(c, rec) {
      TransitionIsNewLook(c, rec);
      ThinsKeeps(c, rec, IsTransition(c.lastRow, RowOf(rec)));
    } else {
      UnkeptLooksTheSame(c, rec);
      ThinsSkips(c, rec);
    }
  }

  /** Reading the log: up to any record, the latest row stored so far looks like it, and is either that
      very record or less than a heartbeat older. */
  lemma {:induction false} ThinnedLogTells(stored: seq<Stored>, recs: seq<Record>, k: nat) returns (m: nat)
    requires Thins(stored, recs) && k < |recs|
    ensures 0 < m <= |stored| && Thins(stored[..m], recs[..k + 1])
    ensures Look(stored[m - 1].rec) == Look(recs[k])
    ensures stored[m - 1].rec == recs[k] || recs[k].blockTs - stored[m - 1].rec.blockTs < HEARTBEAT_SECS
    decreases |recs|
  {
    var n := |recs| - 1;
    if k == n {
      m := |stored|;
      LatestStoredLooks(stored, recs);
      assert stored[..m] == stored && recs[..k + 1] == recs;
    } else {
      assert recs[..n][..k + 1] == recs[..k + 1];
      if stored[|stored| - 1].rec == recs[n] {
        m := ThinnedLogTells(stored[..|stored| - 1], recs[..n], k);
        assert stored[..|stored| - 1][..m] == stored[..m];
      } else {
        m := ThinnedLogTells(stored, recs[..n], k);
      }
    }
  }

  // ------------------------------------------------------------------ every run

  lemma EnterRemembers(c: Column, rec: Record)
    requires InMemory(c)
    ensures InMemory(Enter(c, rec))
  {
    EnterStores(c, rec);
  }

  lemma EnterIsBooked(c: Column, rec: Record)
    requires Booked(c) && !Holds(c.raw, rec.boot, rec.no)
    ensures Booked(Enter(c, rec)) && Enter(c, rec).raw == c.raw + [rec] && Enter(c, rec).cursor == c.cursor
  {
    NewIsDistinct(c.raw, rec);
    AdvanceEncodes(c.episodes, c.raw, rec);
    EnterThins(c, rec);
    EnterRemembers(c, rec);
  }

  lemma HoldsLast(raw: seq<Record>, rec: Record)
    ensures Holds(raw + [rec], rec.boot, rec.no)
  {
    assert (raw + [rec])[|raw|] == rec;
  }

  predicate Follows(c: Column, boot: Option<int>)
  {
    Sound(c) && (c.cursor.Some? ==> Some(c.cursor.value.boot) == boot)
  }

  lemma TakeIsSound(c: Column, rec: Record)
    requires Follows(c, Some(rec.boot))
    ensures Follows(Take(c, rec), Some(rec.boot))
  {
    var moved := c.(cursor := Some(Cursor(rec.boot, rec.no)));
    if rec.no > CursorNo(c, rec.boot) && !Holds(c.raw, rec.boot, rec.no) {
      EnterIsBooked(moved, rec);
      HoldsLast(c.raw, rec);
    }
  }

  /** Reading the in-memory columns back gives exactly what was lost: a restart is invisible. */
  lemma WarmRestores(c: Column)
    requires Booked(c)
    ensures Warm(Cold(c)) == c && Warm(c) == c
  {
    if c.raw != [] { LatestStoredLooks(c.stored, c.raw); }
  }

  lemma RestartChangesNothing(d: Desk)
    requires AllSound(d)
    ensures Restarted(d) == d
  {
    forall v | v in d.columns ensures Warm(Cold(d.columns[v])) == d.columns[v] {
      WarmRestores(d.columns[v]);
    }
  }

  lemma RebootIsSound(d: Desk, boot: int)
    requires AllSound(d)
    ensures AllSound(Rebooted(d, boot)) && Rebooted(d, boot).boot == Some(boot)
  {
  }

  lemma ColumnFollows(d: Desk, v: string)
    requires AllSound(d)
    ensures Follows(ColumnAt(d, v), d.boot) && Warm(ColumnAt(d, v)) == ColumnAt(d, v)
  {
    WarmRestores(ColumnAt(d, v));
  }

  lemma IngestIsSound(d: Desk, rec: Record)
    requires AllSound(d)
    ensures AllSound(Ingested(d, rec))
  {
    if Accepts(d, rec.boot) {
      RebootIsSound(d, rec.boot);
      var e := Rebooted(d, rec.boot);
      ColumnFollows(e, rec.vault);
      TakeIsSound(ColumnAt(e, rec.vault), rec);
    }
  }

  lemma ListedIsSound(c: Column, boot: int)
    requires Follows(c, Some(boot))
    ensures Follows(Listed(c, boot), Some(boot))
  {
    WarmRestores(if c.cursor.None? then c.(cursor := Some(Cursor(boot, 0))) else c);
  }

  lemma {:induction false} AllListedIsSound(d: Desk, boot: int, vaults: seq<string>)
    requires AllSound(d) && d.boot == Some(boot)
    ensures AllSound(AllListed(d, boot, vaults)) && AllListed(d, boot, vaults).boot == Some(boot)
  {
    if vaults != [] {
      var e := AllListed(d, boot, vaults[..|vaults| - 1]);
      var v := vaults[|vaults| - 1];
      AllListedIsSound(d, boot, vaults[..|vaults| - 1]);
      ColumnFollows(e, v);
      ListedIsSound(ColumnAt(e, v), boot);
    }
  }

  /** Over any interleaving of the three sources, boot changes and restarts: no record is counted twice,
      the episodes encode the records, the thinned log misses no change of look, and every cursor points
      at a record of the followed boot that the table holds. */
  lemma {:induction false} EveryRunIsSound(events: seq<Event>)
    ensures AllSound(Run(events))
  {
    if events != [] {
      var d := Run(events[..|events| - 1]);
      EveryRunIsSound(events[..|events| - 1]);
      match events[|events| - 1]
      case Arrived(rec) => IngestIsSound(d, rec);
      case Status(boot, vaults) =>
        RebootIsSound(d, boot);
        AllListedIsSound(Rebooted(d, boot), boot, vaults);
      case FrameId(boot) => RebootIsSound(d, boot);
      case Restart => RestartChangesNothing(d);
    }
  }

  predicate RowsKept(before: seq<Record>, after: seq<Record>, e: Event)
  {
    after == before || (e.Arrived? && after == before + [e.rec])
  }

  lemma IngestKeepsRows(d: Desk, rec: Record, v: string)
    ensures RowsKept(ColumnAt(d, v).raw, ColumnAt(Ingested(d, rec), v).raw, Arrived(rec))
    ensures v != rec.vault ==> ColumnAt(Ingested(d, rec), v).raw == ColumnAt(d, v).raw
  {
    var e := Rebooted(d, rec.boot);
    assert ColumnAt(e, v).raw == ColumnAt(d, v).raw;
    TakeKeepsRows(Warm(ColumnAt(e, rec.vault)), rec);
  }

  lemma TakeKeepsRows(c: Column, rec: Record)
    ensures RowsKept(c.raw, Take(c, rec).raw, Arrived(rec))
  {
  }

  /** No step ever takes a row away, and a new one is the record that arrived. */
  lemma RowsAreKept(d: Desk, e: Event, v: string)
    requires AllSound(d)
    ensures RowsKept(ColumnAt(d, v).raw, ColumnAt(Next(d, e), v).raw, e)
  {
    match e
    case Arrived(rec) => IngestKeepsRows(d, rec, v);
    case Status(boot, vaults) => ListingKeepsRows(Rebooted(d, boot), boot, vaults, v);
    case FrameId(boot) =>
    case Restart => RestartChangesNothing(d);
  }

  lemma {:induction false} ListingKeepsRows(d: Desk, boot: int, vaults: seq<string>, v: string)
    ensures ColumnAt(AllListed(d, boot, vaults), v).raw == ColumnAt(d, v).raw
  {
    if vaults != [] { ListingKeepsRows(d, boot, vaults[..|vaults| - 1], v); }
  }

  /** Only a status body can take the dashboard back to an older boot; an older boot's record changes
      nothing at all. */
  lemma OnlyStatusGoesBack(d: Desk, e: Event)
    requires d.boot.Some?
    ensures Next(d, e).boot.Some?
    ensures Next(d, e).boot.value < d.boot.value ==> e.Status? && e.boot < d.boot.value
    ensures e.Arrived? && e.rec.boot < d.boot.value ==> Next(d, e) == d
  {
    if e.Status? { ListingKeepsBoot(Rebooted(d, e.boot), e.boot, e.vaults); }
  }

  lemma {:induction false} ListingKeepsBoot(d: Desk, boot: int, vaults: seq<string>)
    ensures AllListed(d, boot, vaults).boot == d.boot
  {
    if vaults != [] { ListingKeepsBoot(d, boot, vaults[..|vaults| - 1]); }
  }

  /** A record of a boot newer than the one followed, whatever else the desk holds: its boot is adopted, every
      cursor is of that boot, at the record in its own vault and at the start in every other, and the record is
      entered unless its number was already held. */
  lemma NewerBootIsAdopted(d: Desk, rec: Record)
    requires d.boot.Some? ==> rec.boot > d.boot.value
    ensures var d' := Next(d, Arrived(rec));
      && d'.boot == Some(rec.boot) && d'.columns.Keys == d.columns.Keys + {rec.vault}
      && (forall v :: v in d.columns && v != rec.vault ==> d'.columns[v].cursor == Some(Cursor(rec.boot, 0)))
      && (rec.no > 0 ==> d'.columns[rec.vault].cursor == Some(Cursor(rec.boot, rec.no)))
    ensures rec.no > 0 && !Holds(ColumnAt(d, rec.vault).raw, rec.boot, rec.no) ==>
      Next(d, Arrived(rec)).columns[rec.vault].raw == ColumnAt(d, rec.vault).raw + [rec]
  {
  }

  /** A record of the followed boot above its vault's cursor moves the cursor and is entered, unless its number is
      held; one at or below it changes no row and no cursor. */
  lemma FollowedBootIsTaken(d: Desk, rec: Record)
    requires d.boot == Some(rec.boot)
    ensures var c, c' := ColumnAt(d, rec.vault), ColumnAt(Next(d, Arrived(rec)), rec.vault);
      && (rec.no > CursorNo(c, rec.boot) ==>
            && c'.cursor == Some(Cursor(rec.boot, rec.no))
            && c'.raw == if Holds(c.raw, rec.boot, rec.no) then c.raw else c.raw + [rec])
      && (rec.no <= CursorNo(c, rec.boot) ==> c'.cursor == c.cursor && c'.raw == c.raw && c'.stored == c.stored)
    ensures Next(d, Arrived(rec)).boot == d.boot
    ensures forall v :: v != rec.vault ==> ColumnAt(Next(d, Arrived(rec)), v) == ColumnAt(d, v)
  {
  }

  /** A status body gives every vault it lists a cursor of its boot and takes none away: one of that boot stays, and
      after another boot every one is at the start. */
  lemma StatusListsItsVaults(d: Desk, boot: int, vaults: seq<string>, v: string)
    ensures var d' := Next(d, Status(boot, vaults));
      && d'.boot == Some(boot)
      && (v in d'.columns <==> v in d.columns || v in vaults)
      && (v in d'.columns ==>
            var c := ColumnAt(d, v).cursor;
            d'.columns[v].cursor ==
              if v in d.columns && d.boot != Some(boot) then Some(Cursor(boot, 0))
              else if c.None? && v in vaults then Some(Cursor(boot, 0)) else c)
  {
    ListingIs(Rebooted(d, boot), boot, vaults, v);
  }

  lemma {:induction false} ListingIs(d: Desk, boot: int, vaults: seq<string>, v: string)
    ensures var d' := AllListed(d, boot, vaults);
      && d'.boot == d.boot
      && (v in d'.columns <==> v in d.columns || v in vaults)
      && (v in d'.columns ==>
            d'.columns[v].cursor ==
              if ColumnAt(d, v).cursor.None? && v in vaults then Some(Cursor(boot, 0)) else ColumnAt(d, v).cursor)
  {
    if vaults != [] {
      ListingIs(d, boot, vaults[..|vaults| - 1], v);
      assert vaults == vaults[..|vaults| - 1] + [vaults[|vaults| - 1]];
    }
  }

  /** A column in memory is not read back. */
  lemma WarmKeepsWhatItHas(c: Column)
    ensures c.lastRow.Some? ==> Warm(c) == c
    ensures Warm(c).raw == c.raw && Warm(c).stored == c.stored && Warm(c).episodes == c.episodes
    ensures Warm(c).cursor == c.cursor
  {
  }

  /** One that is not is: its last row from the latest record held, or from the latest thinned one where the raw rows
      are gone, and the time of the latest thinned one. */
  lemma WarmReadsTheTables(c: Column)
    requires c.lastRow.None?
    ensures c.raw != [] ==> Warm(c).lastRow == Some(RowOf(c.raw[|c.raw| - 1]))
    ensures c.raw == [] && c.stored != [] ==> Warm(c).lastRow == Some(RowOf(c.stored[|c.stored| - 1].rec))
    ensures c.raw == [] && c.stored == [] ==> Warm(c).lastRow.None?
    ensures c.stored != [] ==> Warm(c).lastStoredTs == Some(c.stored[|c.stored| - 1].rec.blockTs)
  {
  }

  /** A newer boot heard in a frame's id is adopted as well, and every cursor starts over. */
  lemma NewerFrameIsAdopted(d: Desk, boot: int)
    requires d.boot.Some? && boot > d.boot.value
    ensures var d' := Next(d, FrameId(boot));
      && d'.boot == Some(boot) && d'.columns.Keys == d.columns.Keys
      && (forall v :: v in d.columns ==> d'.columns[v] == d.columns[v].(cursor := Some(Cursor(boot, 0))))
  {
  }

  /** The boots heard of since the last status body, that one's included: a frame's id counts only once some
      boot is known. */
  function Heard(events: seq<Event>): seq<int>
  {
    if events == [] then []
    else
      var before := Heard(events[..|events| - 1]);
      match events[|events| - 1]
      case Status(boot, _) => [boot]
      case Arrived(rec) => before + [rec.boot]
      case FrameId(boot) => if before == [] then [] else before + [boot]
      case Restart => before
  }

  /** Over every run the boot followed is the greatest of them. */
  lemma {:induction false} BootIsTheGreatestHeard(events: seq<Event>)
    ensures Heard(events) == [] <==> Run(events).boot.None?
    ensures Run(events).boot.Some? ==> Run(events).boot.value in Heard(events)
    ensures forall b :: b in Heard(events) ==> Run(events).boot.Some? && b <= Run(events).boot.value
  {
    if events != [] {
      BootIsTheGreatestHeard(events[..|events| - 1]);
      BootMoves(Run(events[..|events| - 1]), events[|events| - 1]);
    }
  }

  lemma BootMoves(d: Desk, e: Event)
    ensures Next(d, e).boot ==
      match e
      case Status(boot, _) => Some(boot)
      case Arrived(rec) => Some(if d.boot.Some? then Max(d.boot.value, rec.boot) else rec.boot)
      case FrameId(boot) => if d.boot.Some? then Some(Max(d.boot.value, boot)) else None
      case Restart => d.boot
  {
    if e.Status? { ListingKeepsBoot(Rebooted(d, e.boot), e.boot, e.vaults); }
  }

  /** Delivering a record again at once is the same as delivering it once. */
  lemma DeliveryIsIdempotent(d: Desk, rec: Record)
    requires AllSound(d)
    ensures Ingested(Ingested(d, rec), rec) == Ingested(d, rec)
  {
    if Accepts(d, rec.boot) {
      var once := Ingested(d, rec);
      IngestIsSound(d, rec);
      RebootIsSound(d, rec.boot);
      ColumnFollows(once, rec.vault);
      TakeTwice(Warm(ColumnAt(Rebooted(d, rec.boot), rec.vault)), rec);
      assert once.columns[rec.vault := once.columns[rec.vault]] == once.columns;
    }
  }

  lemma TakeTwice(c: Column, rec: Record)
    ensures Take(Take(c, rec), rec) == Take(c, rec)
  {
  }

  // ------------------------------------------------------------------ within one boot

  function TakeAll(c: Column, recs: seq<Record>): Column
    decreases |recs|
  {
    if recs == [] then c else TakeAll(Take(c, recs[0]), recs[1..])
  }

  /** The records that set a new highest number. */
  function Maxima(recs: seq<Record>, top: int): seq<Record>
  {
    if recs == [] then []
    else if recs[0].no > top then [recs[0]] + Maxima(recs[1..], recs[0].no)
    else Maxima(recs[1..], top)
  }

  predicate NoneAbove(raw: seq<Record>, boot: int, top: int)
  {
    forall k :: 0 <= k < |raw| && raw[k].boot == boot ==> raw[k].no <= top
  }

  function Higher(rec: Record, top: int): int
  {
    if rec.no > top then rec.no else top
  }

  lemma TakeIsMaximum(c: Column, rec: Record)
    requires NoneAbove(c.raw, rec.boot, CursorNo(c, rec.boot))
    ensures Take(c, rec).raw == if rec.no > CursorNo(c, rec.boot) then c.raw + [rec] else c.raw
    ensures CursorNo(Take(c, rec), rec.boot) == Higher(rec, CursorNo(c, rec.boot))
    ensures NoneAbove(Take(c, rec).raw, rec.boot, CursorNo(Take(c, rec), rec.boot))
  {
  }

  /** Within a boot the table gains exactly the running maxima of what is delivered, in order. */
  lemma {:induction false} OnlyMaximaAreCounted(c: Column, recs: seq<Record>, boot: int)
    requires forall k :: 0 <= k < |recs| ==> recs[k].boot == boot
    requires NoneAbove(c.raw, boot, CursorNo(c, boot))
    ensures TakeAll(c, recs).raw == c.raw + Maxima(recs, CursorNo(c, boot))
    decreases |recs|
  {
    if recs == [] {
      assert c.raw + [] == c.raw;
    } else {
      var rec, top := recs[0], CursorNo(c, boot);
      TakeIsMaximum(c, rec);
      OnlyMaximaAreCounted(Take(c, rec), recs[1..], boot);
      if rec.no > top {
        assert c.raw + [rec] + Maxima(recs[1..], rec.no) == c.raw + ([rec] + Maxima(recs[1..], rec.no));
      }
    }
  }

  predicate Counted(m: seq<Record>, no: int)
  {
    exists i :: 0 <= i < |m| && m[i].no == no
  }

  predicate ComesFirst(recs: seq<Record>, k: nat, top: int)
    requires k < |recs|
  {
    recs[k].no > top && forall j :: 0 <= j < k ==> recs[j].no < recs[k].no
  }

  /** Some delivery of the number comes before every number as high. */
  predicate ComesInTime(recs: seq<Record>, top: int, no: int)
  {
    exists k :: 0 <= k < |recs| && recs[k].no == no && ComesFirst(recs, k, top)
  }

  lemma LaterInTime(recs: seq<Record>, top: int, no: int)
    requires recs != [] && ComesInTime(recs[1..], Higher(recs[0], top), no)
    ensures ComesInTime(recs, top, no)
  {
    var later := recs[1..];
    var k :| 0 <= k < |later| && later[k].no == no && ComesFirst(later, k, Higher(recs[0], top));
    assert recs[k + 1] == later[k];
    forall j | 0 <= j < k + 1 ensures recs[j].no < recs[k + 1].no {
      if j > 0 { assert recs[j] == later[j - 1]; }
    }
    assert ComesFirst(recs, k + 1, top);
  }

  lemma InTimeLater(recs: seq<Record>, top: int, no: int)
    requires recs != [] && ComesInTime(recs, top, no)
    ensures (recs[0].no == no && no > top) || ComesInTime(recs[1..], Higher(recs[0], top), no)
  {
    var later := recs[1..];
    var k :| 0 <= k < |recs| && recs[k].no == no && ComesFirst(recs, k, top);
    if k > 0 {
      assert recs[0].no < recs[k].no;
      assert later[k - 1] == recs[k];
      assert ComesFirst(later, k - 1, Higher(recs[0], top));
    }
  }

  lemma CountedHead(rec: Record, later: seq<Record>, no: int)
    ensures Counted([rec] + later, no) <==> rec.no == no || Counted(later, no)
  {
    var m := [rec] + later;
    if Counted(later, no) {
      var i :| 0 <= i < |later| && later[i].no == no;
      assert m[i + 1].no == no;
    }
    if rec.no == no { assert m[0].no == no; }
    if Counted(m, no) {
      var i :| 0 <= i < |m| && m[i].no == no;
      assert i > 0 ==> later[i - 1].no == no;
    }
  }

  /** So a number is counted exactly when some delivery of it comes before every number as high: one
      that has been overtaken never is, however often it is delivered afterwards. */
  lemma {:induction false} CountedExactly(recs: seq<Record>, top: int, no: int)
    ensures Counted(Maxima(recs, top), no) <==> ComesInTime(recs, top, no)
  {
    if recs != [] {
      var top' := Higher(recs[0], top);
      CountedExactly(recs[1..], top', no);
      if ComesInTime(recs[1..], top', no) { LaterInTime(recs, top, no); }
      if ComesInTime(recs, top, no) { InTimeLater(recs, top, no); }
      if recs[0].no > top {
        CountedHead(recs[0], Maxima(recs[1..], top'), no);
        if recs[0].no == no { assert ComesFirst(recs, 0, top); }
      }
    }
  }

  /** A record overtaken on the way: number 2 is delivered, then number 1, and 1 is never counted, nor on any
      later delivery of either. */
  lemma {:induction false} OvertakenIsLost(one: Record, two: Record, later: seq<Record>)
    requires one.boot == two.boot && one.no == 1 && two.no == 2
    requires forall k :: 0 <= k < |later| ==> later[k] == one || later[k] == two
    ensures TakeAll(EMPTY, [two, one] + later).raw == [two]
    ensures !Counted(Maxima([two, one] + later, 0), 1)
  {
    var recs := [two, one] + later;
    OnlyMaximaAreCounted(EMPTY, recs, one.boot);
    CountedExactly(recs, 0, 1);
    assert recs[0] == two;
    NothingHigher(recs[1..], 2);
    assert Maxima(recs, 0) == [two] + Maxima(recs[1..], 2);
  }

  lemma {:induction false} NothingHigher(recs: seq<Record>, top: int)
    requires forall k :: 0 <= k < |recs| ==> recs[k].no <= top
    ensures Maxima(recs, top) == []
  {
    if recs != [] { NothingHigher(recs[1..], top); }
  }

  // ------------------------------------------------------------------ the resume point

  predicate CursorIs(d: Desk, v: string, no: int)
  {
    v in d.columns && d.boot.Some? && d.columns[v].cursor == Some(Cursor(d.boot.value, no))
  }

  ghost predicate NoneBelow(d: Desk, n: int)
  {
    forall v, no :: CursorIs(d, v, no) ==> n <= no
  }

  /** The lowest cursor of the followed boot; nothing when there is none, or when it is at the start. */
  ghost predicate ResumesAt(d: Desk, r: Option<int>)
  {
    match r
    case Some(n) => n != 0 && NoneBelow(d, n) && exists v :: CursorIs(d, v, n)
    case None => (forall v, no :: !CursorIs(d, v, no)) || (NoneBelow(d, 0) && exists v :: CursorIs(d, v, 0))
  }

  // ------------------------------------------------------------------ the collector itself

  datatype Reason = OldBoot | Duplicate | Taken

  datatype IngestResult = IngestResult(inserted: bool, stored: bool, transition: bool, reason: Reason)

  /** Why a record is or is not considered: its boot comes first, then its vault's cursor. */
  function ReasonFor(d: Desk, rec: Record): Reason
  {
    if !Accepts(d, rec.boot) then OldBoot
    else if rec.no <= CursorNo(ColumnAt(Rebooted(d, rec.boot), rec.vault), rec.boot) then Duplicate
    else Taken
  }

  /** A record is of an older boot, or its number is at or below what its vault has of the boot: the cursor if that
      boot is followed, and nothing if the boot is new. */
  lemma ReasonTells(d: Desk, rec: Record)
    ensures ReasonFor(d, rec) == OldBoot <==> d.boot.Some? && rec.boot < d.boot.value
    ensures ReasonFor(d, rec) == Duplicate <==>
      || (d.boot == Some(rec.boot) && rec.no <= CursorNo(ColumnAt(d, rec.vault), rec.boot))
      || ((d.boot.None? || rec.boot > d.boot.value) && rec.no <= 0)
  {
  }

  /** The answer tells what became of the tables: whether the raw one gained the record, whether the thinned one
      did, and whether it is marked a change there. */
  predicate AnswersFor(c: Column, after: Column, rec: Record, r: IngestResult)
  {
    && after.raw == (if r.inserted then c.raw + [rec] else c.raw)
    && after.stored == (if r.stored then c.stored + [Stored(rec, r.transition)] else c.stored)
    && (r.transition ==> r.stored) && (r.stored ==> r.inserted) && (r.inserted ==> r.reason == Taken)
  }

  class KeeperCollector {
    var bootAt: Option<int>
    var columns: map<string, Column>

    function View(): Desk
      reads this
    {
      Desk(bootAt, columns)
    }

    constructor ()
      ensures View() == Run([])
    {
      bootAt, columns := None, map[];
    }

    method HandleBoot(boot: int)
      modifies this
      ensures View() == Rebooted(old(View()), boot)
    {
      if bootAt == Some(boot) { return; }
      bootAt := Some(boot);
      var left := columns.Keys;
      while left != {}
        invariant left <= columns.Keys && columns.Keys == old(columns).Keys
        invariant forall v :: v in columns ==>
          columns[v] == if v in left then old(columns)[v] else old(columns)[v].(cursor := Some(Cursor(boot, 0)))
        invariant bootAt == Some(boot)
        decreases left
      {
        var v :| v in left;
        columns := columns[v := columns[v].(cursor := Some(Cursor(boot, 0)))];
        left := left - {v};
      }
    }

    method WarmVault(vault: string)
      modifies `columns
      ensures View() == old(View()).(columns := old(columns)[vault := Warm(ColumnAt(old(View()), vault))])
    {
      var c := if vault in columns then columns[vault] else EMPTY;
      if c.lastRow.None? {
        if c.raw != [] {
          c := c.(lastRow := Some(RowOf(c.raw[|c.raw| - 1])));
        } else if c.stored != [] {
          c := c.(lastRow := Some(RowOf(c.stored[|c.stored| - 1].rec)));
        }
        if c.stored != [] {
          c := c.(lastStoredTs := Some(c.stored[|c.stored| - 1].rec.blockTs));
        }
      }
      columns := columns[vault := c];
    }

    method ApplyEpisode(eps: seq<Episode>, rec: Record) returns (after: seq<Episode>)
      ensures after == Advance(eps, rec)
    {
      var key := S.StandingOf(rec.cycle);
      var open := OpenAt(eps);
      after := eps;
      if open.Some? && eps[open.value].key == key {
        var e := eps[open.value];
        after := after[open.value := e.(lastNo := rec.no, cycles := e.cycles + 1, detail := rec.detail)];
        return;
      }
      if open.Some? {
        after := after[open.value := eps[open.value].(until := Some(rec.blockTs))];
      }
      after := after + [Episode(key, rec.blockTs, None, rec.no, rec.no, 1, rec.detail)];
    }

    method EnterRecord(c: Column, rec: Record) returns (after: Column, result: IngestResult)
      ensures after == Enter(c, rec)
      ensures AnswersFor(c, after, rec, result) && result.reason == Taken
    {
      var row := RowOf(rec);
      var transition := IsTransition(c.lastRow, row);
      var heartbeat := c.lastStoredTs.None? || rec.blockTs - c.lastStoredTs.value >= HEARTBEAT_SECS;
      after := c.(raw := c.raw + [rec]);
      if transition || heartbeat {
        after := after.(stored := after.stored + [Stored(rec, transition)], lastStoredTs := Some(rec.blockTs));
      }
      var eps := ApplyEpisode(c.episodes, rec);
      after := after.(lastRow := Some(row), episodes := eps);
      result := IngestResult(true, transition || heartbeat, transition, Taken);
    }

    method TakeRecord(c: Column, rec: Record) returns (after: Column, result: IngestResult)
      ensures after == Take(c, rec)
      ensures AnswersFor(c, after, rec, result)
      ensures result.reason == if rec.no <= CursorNo(c, rec.boot) then Duplicate else Taken
    {
      after, result := c, IngestResult(false, false, false, Duplicate);
      var cur := if c.cursor.Some? && c.cursor.value.boot == rec.boot then c.cursor.value else Cursor(rec.boot, 0);
      if rec.no <= cur.no { return; }
      after := c.(cursor := Some(Cursor(rec.boot, rec.no)));
      result := result.(reason := Taken);
      if !Holds(after.raw, rec.boot, rec.no) {
        after, result := EnterRecord(after, rec);
      }
    }

    /** A record of the followed boot. */
    method TakeIntoVault(rec: Record) returns (result: IngestResult)
      modifies `columns
      ensures var c := ColumnAt(old(View()), rec.vault);
        && View() == old(View()).(columns := old(columns)[rec.vault := Take(Warm(c), rec)])
        && AnswersFor(c, Take(Warm(c), rec), rec, result)
        && result.reason == if rec.no <= CursorNo(c, rec.boot) then Duplicate else Taken
    {
      WarmVault(rec.vault);
      var c;
      c, result := TakeRecord(columns[rec.vault], rec);
      columns := columns[rec.vault := c];
    }

    method IngestRecord(rec: Record) returns (result: IngestResult)
      modifies this
      ensures View() == Ingested(old(View()), rec)
      ensures AnswersFor(ColumnAt(old(View()), rec.vault), ColumnAt(View(), rec.vault), rec, result)
      ensures result.reason == ReasonFor(old(View()), rec)
      ensures old(bootAt).None? || rec.boot > old(bootAt).value ==> bootAt == Some(rec.boot) && result.reason != OldBoot
      ensures old(bootAt).Some? && rec.boot < old(bootAt).value ==> View() == old(View()) && result.reason == OldBoot
      ensures (old(bootAt).None? || rec.boot > old(bootAt).value) && rec.no > 0 ==>
        (result.inserted <==> !Holds(ColumnAt(old(View()), rec.vault).raw, rec.boot, rec.no))
    {
      result := IngestResult(false, false, false, OldBoot);
      if bootAt.None? || rec.boot > bootAt.value {
        HandleBoot(rec.boot);
      } else if rec.boot != bootAt.value {
        return;
      }
      result := TakeIntoVault(rec);
    }

    method IngestStatus(boot: int, vaults: seq<string>)
      modifies this
      ensures View() == Polled(old(View()), boot, vaults)
    {
      HandleBoot(boot);
      ghost var start := View();
      for i := 0 to |vaults|
        invariant View() == AllListed(start, boot, vaults[..i])
      {
        assert vaults[..i + 1][..i] == vaults[..i];
        var v := vaults[i];
        var c := if v in columns then columns[v] else EMPTY;
        if c.cursor.None? {
          columns := columns[v := c.(cursor := Some(Cursor(boot, 0)))];
        }
        WarmVault(v);
      }
      assert vaults[..|vaults|] == vaults;
    }

    /** `Last-Event-ID` for a reconnect. */
    method LastEventId() returns (r: Option<int>)
      ensures ResumesAt(View(), r)
    {
      if bootAt.None? { return None; }
      var least: Option<int> := None;
      var left := columns.Keys;
      while left != {}
        invariant left <= columns.Keys
        invariant forall v, no :: CursorIs(View(), v, no) && v !in left ==> least.Some? && least.value <= no
        invariant least.Some? ==> exists v :: CursorIs(View(), v, least.value)
        decreases left
      {
        var v :| v in left;
        left := left - {v};
        var c := columns[v].cursor;
        if c.Some? && c.value.boot == bootAt.value {
          assert CursorIs(View(), v, c.value.no);
          if least.None? || c.value.no < least.value {
            least := Some(c.value.no);
          }
        }
      }
      return if least.None? || least.value == 0 then None else least;
    }
  }
}
