/** The chain-event indexer (ui/server/collect/events.ts): a resumable chunked backfill per vault. The
    clock, the provider and the points where a process dies are what each round of the loop is told. */
module Backfill {
  import opened Wrappers

  const CHUNK_FLOOR := 250
  const BACKOFF_MIN_MS := 5000
  const BACKOFF_MAX_MS := 60000
  const MAX_REFUSALS := 6

  /** A log of one vault; `known` when the event interface can decode it. */
  datatype Log = Log(vault: string, block: nat, hash: string, index: nat, known: bool)

  datatype Cursor = Cursor(from: int, to: int, done: bool)

  /** What survives a tick: the chunk and backoff of the process, the cursors and the event table. */
  datatype Index = Index(chunk: int, backoffMs: int, cursors: map<string, Cursor>, rows: seq<Log>)

  // ------------------------------------------------------------------ the event table

  predicate HasKey(rows: seq<Log>, hash: string, index: nat)
  {
    exists k :: 0 <= k < |rows| && rows[k].hash == hash && rows[k].index == index
  }

  /** Undecodable logs are passed over; a key already in the table is ignored. */
  function Insert(rows: seq<Log>, l: Log): seq<Log>
  {
    if l.known && !HasKey(rows, l.hash, l.index) then rows + [l] else rows
  }

  function InsertAll(rows: seq<Log>, logs: seq<Log>): seq<Log>
  {
    if logs == [] then rows else Insert(InsertAll(rows, logs[..|logs| - 1]), logs[|logs| - 1])
  }

  predicate InRange(l: Log, vault: string, from: int, to: int)
  {
    l.vault == vault && from <= l.block <= to
  }

  /** What the provider answers for a vault and a range of blocks. */
  function LogsIn(chain: seq<Log>, vault: string, from: int, to: int): seq<Log>
  {
    if chain == [] then []
    else
      LogsIn(chain[..|chain| - 1], vault, from, to)
      + if InRange(chain[|chain| - 1], vault, from, to) then [chain[|chain| - 1]] else []
  }

  // ------------------------------------------------------------------ one tick for one vault

  /** How a round went: the range was refused as too large; the read failed otherwise; the logs came and
      could not be written, all or none; they were written but the process died before the cursor was; or
      everything was. */
  datatype Round = Refused | Failed | Unwritten | Died | Written

  function Shrunk(ix: Index): Index
  {
    ix.(chunk := Max(CHUNK_FLOOR, ix.chunk / 2),
        backoffMs := if ix.backoffMs == 0 then BACKOFF_MIN_MS else Min(BACKOFF_MAX_MS, ix.backoffMs * 2))
  }

  function RangeEnd(ix: Index, cur: Cursor, head: int): int
  {
    Min(head, cur.to + ix.chunk)
  }

  function Stored(ix: Index, chain: seq<Log>, vault: string, cur: Cursor, head: int): Index
  {
    ix.(backoffMs := 0, rows := InsertAll(ix.rows, LogsIn(chain, vault, cur.to + 1, RangeEnd(ix, cur, head))))
  }

  function Moved(ix: Index, cur: Cursor, head: int): Cursor
  {
    Cursor(cur.from, RangeEnd(ix, cur, head), RangeEnd(ix, cur, head) >= head)
  }

  function Saved(ix: Index, vault: string, cur: Cursor): Index
  {
    ix.(cursors := ix.cursors[vault := cur])
  }

  /** Where the loop is: its own cursor and refusals beside what outlives it, and whether it has returned. */
  datatype Turn = Turn(ix: Index, cur: Cursor, refusals: nat, over: bool)

  function TakeTurn(t: Turn, chain: seq<Log>, vault: string, head: int, round: Round): Turn
  {
    if t.cur.to + 1 > head then
      t.(over := true, ix := if t.cur.done then t.ix else Saved(t.ix, vault, t.cur.(done := true)))
    else
      match round
      case Refused => t.(ix := Shrunk(t.ix), refusals := t.refusals + 1, over := t.refusals + 1 >= MAX_REFUSALS)
      case Failed => t.(over := true)
      case Unwritten => t.(ix := t.ix.(backoffMs := 0), over := true)
      case Died => t.(ix := Stored(t.ix, chain, vault, t.cur, head), over := true)
      case Written =>
        var next := Moved(t.ix, t.cur, head);
        Turn(Saved(Stored(t.ix, chain, vault, t.cur, head), vault, next), next, 0, false)
  }

  /** The loop, round by round until it returns; it is out of time when the rounds run out. */
  function Walk(t: Turn, chain: seq<Log>, vault: string, head: int, rounds: seq<Round>): Turn
  {
    if rounds == [] then t
    else
      var before := Walk(t, chain, vault, head, rounds[..|rounds| - 1]);
      if before.over then before else TakeTurn(before, chain, vault, head, rounds[|rounds| - 1])
  }

  /** Where a vault's walk starts: its cursor, or just before its first block; without a start block,
      just before the head. */
  function StartCursor(ix: Index, vault: string, startBlock: Option<nat>, head: int): Cursor
  {
    var start := if startBlock.Some? then startBlock.value else head;
    if vault in ix.cursors then ix.cursors[vault] else Cursor(start, start - 1, false)
  }

  function IndexVault(ix: Index, chain: seq<Log>, vault: string, startBlock: Option<nat>, head: int,
                      rounds: seq<Round>): Index
  {
    Walk(Turn(ix, StartCursor(ix, vault, startBlock, head), 0, false), chain, vault, head, rounds).ix
  }

  // ------------------------------------------------------------------ coverage

  /** Transaction hash and log index name a log. */
  predicate Named(chain: seq<Log>)
  {
    forall a, b :: a in chain && b in chain && a.hash == b.hash && a.index == b.index ==> a == b
  }

  predicate OncePerKey(rows: seq<Log>)
  {
    forall i, j :: 0 <= i < j < |rows| ==> rows[i].hash != rows[j].hash || rows[i].index != rows[j].index
  }

  predicate OnlyReal(rows: seq<Log>, chain: seq<Log>)
  {
    forall l :: l in rows ==> l in chain && l.known
  }

  /** Every decodable log of the vault in the range is in the table. */
  predicate Covers(rows: seq<Log>, chain: seq<Log>, vault: string, from: int, to: int)
  {
    forall l :: l in chain && l.known && InRange(l, vault, from, to) ==> l in rows
  }

  predicate Sound(ix: Index, chain: seq<Log>)
  {
    && ix.chunk >= 1 && OncePerKey(ix.rows) && OnlyReal(ix.rows, chain)
    && forall v :: v in ix.cursors ==>
        ix.cursors[v].from <= ix.cursors[v].to + 1 && Covers(ix.rows, chain, v, ix.cursors[v].from, ix.cursors[v].to)
  }

  lemma {:induction false} LogsInAre(chain: seq<Log>, vault: string, from: int, to: int, l: Log)
    ensures l in LogsIn(chain, vault, from, to) <==> l in chain && InRange(l, vault, from, to)
  {
    if chain != [] {
      LogsInAre(chain[..|chain| - 1], vault, from, to, l);
      assert chain == chain[..|chain| - 1] + [chain[|chain| - 1]];
    }
  }

  lemma InsertIs(rows: seq<Log>, chain: seq<Log>, l: Log)
    requires Named(chain) && OnlyReal(rows, chain) && OncePerKey(rows) && l in chain
    ensures OncePerKey(Insert(rows, l)) && OnlyReal(Insert(rows, l), chain)
    ensures forall r :: r in Insert(rows, l) <==> r in rows || (r == l && l.known)
  {
    if HasKey(rows, l.hash, l.index) {
      var k :| 0 <= k < |rows| && rows[k].hash == l.hash && rows[k].index == l.index;
      assert rows[k] in rows && rows[k] == l;
    }
  }

  lemma {:induction false} InsertAllIs(rows: seq<Log>, chain: seq<Log>, logs: seq<Log>)
    requires Named(chain) && OnlyReal(rows, chain) && OncePerKey(rows)
    requires forall l :: l in logs ==> l in chain
    ensures OncePerKey(InsertAll(rows, logs)) && OnlyReal(InsertAll(rows, logs), chain)
    ensures forall r :: r in InsertAll(rows, logs) <==> r in rows || (r in logs && r.known)
  {
    if logs != [] {
      var before := logs[..|logs| - 1];
      assert logs == before + [logs[|logs| - 1]];
      assert forall l :: l in before ==> l in logs;
      InsertAllIs(rows, chain, before);
      InsertIs(InsertAll(rows, before), chain, logs[|logs| - 1]);
    }
  }

  lemma StoredIs(ix: Index, chain: seq<Log>, vault: string, cur: Cursor, head: int)
    requires Named(chain) && OnlyReal(ix.rows, chain) && OncePerKey(ix.rows)
    ensures var rows := Stored(ix, chain, vault, cur, head).rows;
      && OncePerKey(rows) && OnlyReal(rows, chain)
      && (forall r :: r in ix.rows ==> r in rows)
      && Covers(rows, chain, vault, cur.to + 1, RangeEnd(ix, cur, head))
  {
    var logs := LogsIn(chain, vault, cur.to + 1, RangeEnd(ix, cur, head));
    forall l ensures l in logs <==> l in chain && InRange(l, vault, cur.to + 1, RangeEnd(ix, cur, head)) {
      LogsInAre(chain, vault, cur.to + 1, RangeEnd(ix, cur, head), l);
    }
    InsertAllIs(ix.rows, chain, logs);
  }

  lemma StoredIsSound(ix: Index, chain: seq<Log>, vault: string, cur: Cursor, head: int)
    requires Named(chain) && Sound(ix, chain)
    ensures Sound(Stored(ix, chain, vault, cur, head), chain)
  {
    StoredIs(ix, chain, vault, cur, head);
    CoverGrows(ix, Stored(ix, chain, vault, cur, head), chain);
  }

  lemma CoverGrows(ix: Index, ix': Index, chain: seq<Log>)
    requires Sound(ix, chain) && ix'.cursors == ix.cursors
    requires forall r :: r in ix.rows ==> r in ix'.rows
    ensures forall v :: v in ix.cursors ==> Covers(ix'.rows, chain, v, ix.cursors[v].from, ix.cursors[v].to)
  {
  }

  /** The walk's own cursor: the saved one, or an empty range not saved yet. */
  predicate Holds(ix: Index, vault: string, cur: Cursor)
  {
    if vault in ix.cursors then ix.cursors[vault] == cur else cur.to == cur.from - 1 && !cur.done
  }

  lemma MovedIsSound(ix: Index, chain: seq<Log>, vault: string, cur: Cursor, head: int)
    requires Named(chain) && Sound(ix, chain) && Holds(ix, vault, cur) && cur.to < head
    ensures Sound(Saved(Stored(ix, chain, vault, cur, head), vault, Moved(ix, cur, head)), chain)
    ensures cur.to < Moved(ix, cur, head).to <= head
  {
    StoredIs(ix, chain, vault, cur, head);
    StoredIsSound(ix, chain, vault, cur, head);
    var rows := Stored(ix, chain, vault, cur, head).rows;
    assert Covers(rows, chain, vault, cur.from, cur.to);
    forall l | l in chain && l.known && InRange(l, vault, cur.from, RangeEnd(ix, cur, head)) ensures l in rows {
      if l.block > cur.to { assert InRange(l, vault, cur.to + 1, RangeEnd(ix, cur, head)); }
      else { assert InRange(l, vault, cur.from, cur.to); }
    }
  }

  lemma ShrunkIsSound(ix: Index, chain: seq<Log>)
    requires Sound(ix, chain)
    ensures Sound(Shrunk(ix), chain)
  {
  }

  /** A cursor that stays put or moves on, from the same first block. */
  predicate Onward(before: Cursor, after: Cursor)
  {
    after.from == before.from && after.to >= before.to
  }

  ghost predicate OnlyVault(ix: Index, ix': Index, vault: string)
  {
    forall v :: v != vault ==>
      && (v in ix'.cursors <==> v in ix.cursors)
      && (v in ix.cursors ==> ix'.cursors[v] == ix.cursors[v])
  }

  predicate Steady(t: Turn, chain: seq<Log>, vault: string)
  {
    Sound(t.ix, chain) && t.cur.from <= t.cur.to + 1 && (!t.over ==> Holds(t.ix, vault, t.cur))
  }

  /** What any number of turns may have done since the first. */
  ghost predicate Proceeds(first: Turn, t: Turn, vault: string, head: int)
  {
    && OnlyVault(first.ix, t.ix, vault)
    && (vault in first.ix.cursors ==> vault in t.ix.cursors)
    && Onward(first.cur, t.cur) && t.cur.to <= Max(first.cur.to, head)
    && (vault in t.ix.cursors ==> t.ix.cursors[vault].from == t.cur.from && t.ix.cursors[vault].to == t.cur.to)
  }

  lemma TurnIsSteady(t: Turn, chain: seq<Log>, vault: string, head: int, round: Round)
    requires Named(chain) && Steady(t, chain, vault) && !t.over
    ensures Steady(TakeTurn(t, chain, vault, head, round), chain, vault)
  {
    if t.cur.to + 1 <= head {
      match round
      case Refused => ShrunkIsSound(t.ix, chain);
      case Failed =>
      case Unwritten =>
      case Died => StoredIsSound(t.ix, chain, vault, t.cur, head);
      case Written => MovedIsSound(t.ix, chain, vault, t.cur, head);
    }
  }

  lemma TurnProceeds(first: Turn, t: Turn, chain: seq<Log>, vault: string, head: int, round: Round)
    requires t.ix.chunk >= 1 && !t.over && Holds(t.ix, vault, t.cur) && Proceeds(first, t, vault, head)
    ensures Proceeds(first, TakeTurn(t, chain, vault, head, round), vault, head)
  {
  }

  /** However the rounds go, and wherever the process dies: the table stays sound, no cursor goes back,
      no block is skipped, and nothing is written twice. */
  lemma {:induction false} WalkIsSound(t: Turn, chain: seq<Log>, vault: string, head: int, rounds: seq<Round>)
    requires Named(chain) && Steady(t, chain, vault) && !t.over
    ensures Steady(Walk(t, chain, vault, head, rounds), chain, vault)
    ensures Proceeds(t, Walk(t, chain, vault, head, rounds), vault, head)
  {
    if rounds != [] {
      var before := Walk(t, chain, vault, head, rounds[..|rounds| - 1]);
      WalkIsSound(t, chain, vault, head, rounds[..|rounds| - 1]);
      if !before.over {
        TurnIsSteady(before, chain, vault, head, rounds[|rounds| - 1]);
        TurnProceeds(t, before, chain, vault, head, rounds[|rounds| - 1]);
      }
    }
  }

  // ------------------------------------------------------------------ every run

  datatype Event =
    | Tick(vault: string, startBlock: Option<nat>, head: nat, rounds: seq<Round>)
    | Restart

  function Next(ix: Index, chain: seq<Log>, chunkBlocks: int, e: Event): Index
  {
    match e
    case Tick(vault, startBlock, head, rounds) => IndexVault(ix, chain, vault, startBlock, head, rounds)
    case Restart => ix.(chunk := chunkBlocks, backoffMs := 0)
  }

  function Run(chain: seq<Log>, chunkBlocks: int, events: seq<Event>): Index
  {
    if events == [] then Index(chunkBlocks, 0, map[], [])
    else Next(Run(chain, chunkBlocks, events[..|events| - 1]), chain, chunkBlocks, events[|events| - 1])
  }

  lemma TickIsSound(ix: Index, chain: seq<Log>, vault: string, startBlock: Option<nat>, head: int, rounds: seq<Round>)
    requires Named(chain) && Sound(ix, chain)
    ensures var ix' := IndexVault(ix, chain, vault, startBlock, head, rounds);
      && Sound(ix', chain)
      && OnlyVault(ix, ix', vault)
      && (vault in ix.cursors ==> vault in ix'.cursors && Onward(ix.cursors[vault], ix'.cursors[vault]))
      && (vault in ix'.cursors ==> ix'.cursors[vault].from == StartCursor(ix, vault, startBlock, head).from)
  {
    WalkIsSound(Turn(ix, StartCursor(ix, vault, startBlock, head), 0, false), chain, vault, head, rounds);
  }

  /** Over any run of ticks, refusals, failures, deaths and restarts, each vault's table holds every
      decodable log from the cursor's first block to its last, each once, and nothing else. */
  lemma {:induction false} EveryRunCovers(chain: seq<Log>, chunkBlocks: int, events: seq<Event>)
    requires Named(chain) && chunkBlocks >= 1
    ensures Sound(Run(chain, chunkBlocks, events), chain)
  {
    if events != [] {
      var ix := Run(chain, chunkBlocks, events[..|events| - 1]);
      EveryRunCovers(chain, chunkBlocks, events[..|events| - 1]);
      match events[|events| - 1]
      case Tick(vault, startBlock, head, rounds) => TickIsSound(ix, chain, vault, startBlock, head, rounds);
      case Restart =>
    }
  }

  /** No event takes a cursor back or away. */
  lemma CursorsOnlyAdvance(chain: seq<Log>, chunkBlocks: int, events: seq<Event>, e: Event, vault: string)
    requires Named(chain) && chunkBlocks >= 1
    requires vault in Run(chain, chunkBlocks, events).cursors
    ensures var ix := Run(chain, chunkBlocks, events);
      var ix' := Next(ix, chain, chunkBlocks, e);
      vault in ix'.cursors && Onward(ix.cursors[vault], ix'.cursors[vault])
  {
    EveryRunCovers(chain, chunkBlocks, events);
    match e
    case Tick(v, startBlock, head, rounds) =>
      TickIsSound(Run(chain, chunkBlocks, events), chain, v, startBlock, head, rounds);
    case Restart =>
  }

  /** With one start block throughout, the covered range begins there: no block from the start to the
      cursor was missed. */
  lemma {:induction false} CoverageBeginsAtStart(chain: seq<Log>, chunkBlocks: int, events: seq<Event>, vault: string,
                                                 start: nat)
    requires Named(chain) && chunkBlocks >= 1
    requires forall k :: 0 <= k < |events| && events[k].Tick? && events[k].vault == vault ==>
      events[k].startBlock == Some(start)
    ensures var cursors := Run(chain, chunkBlocks, events).cursors;
      vault in cursors ==> cursors[vault].from == start
  {
    if events != [] {
      var before := events[..|events| - 1];
      CoverageBeginsAtStart(chain, chunkBlocks, before, vault, start);
      EveryRunCovers(chain, chunkBlocks, before);
      match events[|events| - 1]
      case Tick(v, startBlock, head, rounds) =>
        TickIsSound(Run(chain, chunkBlocks, before), chain, v, startBlock, head, rounds);
      case Restart =>
    }
  }

  /** The provider answers for the vault and the blocks asked, and for nothing else. */
  lemma AnswersAreTheVaults(chain: seq<Log>, vault: string, from: int, to: int, l: Log)
    ensures l in LogsIn(chain, vault, from, to) <==> l in chain && l.vault == vault && from <= l.block && l.block <= to
  {
    LogsInAre(chain, vault, from, to, l);
  }

  /** A new process starts with the configured chunk and no wait, and keeps what it has indexed. */
  lemma RestartForgetsTheProvider(chain: seq<Log>, chunkBlocks: int, events: seq<Event>)
    ensures var before, after := Run(chain, chunkBlocks, events), Run(chain, chunkBlocks, events + [Restart]);
      after.chunk == chunkBlocks && after.backoffMs == 0 && after.cursors == before.cursors && after.rows == before.rows
  {
    assert (events + [Restart])[..|events|] == events;
  }

  /** So after any run at all, one tick with a willing provider leaves every decodable log of the vault, from where
      its range begins to the head, in the table. */
  lemma AnyRunCanFinish(chain: seq<Log>, chunkBlocks: int, events: seq<Event>, vault: string,
                        startBlock: Option<nat>, head: nat, rounds: seq<Round>, l: Log)
    requires Named(chain) && chunkBlocks >= 1
    requires forall k :: 0 <= k < |rounds| ==> rounds[k] == Written
    requires var cur := StartCursor(Run(chain, chunkBlocks, events), vault, startBlock, head);
      |rounds| > 0 && |rounds| > head - cur.to
    ensures var ix := Run(chain, chunkBlocks, events + [Tick(vault, startBlock, head, rounds)]);
      && vault in ix.cursors && ix.cursors[vault].to >= head
      && (l in chain && l.known && l.vault == vault && ix.cursors[vault].from <= l.block <= head ==> l in ix.rows)
      && (l in ix.rows ==> l in chain && l.known)
  {
    var more := events + [Tick(vault, startBlock, head, rounds)];
    assert more[..|events|] == events;
    EveryRunCovers(chain, chunkBlocks, events);
    EveryRunCovers(chain, chunkBlocks, more);
    WillingProviderFinishes(Run(chain, chunkBlocks, events), chain, vault, startBlock, head, rounds);
  }

  /** Where a vault's range begins is its first block, or the head of the moment without one, and never moves. */
  lemma StartIsKept(ix: Index, vault: string, startBlock: Option<nat>, head: int)
    ensures var cur := StartCursor(ix, vault, startBlock, head);
      && (vault in ix.cursors ==> cur == ix.cursors[vault])
      && (vault !in ix.cursors && startBlock.Some? ==> cur == Cursor(startBlock.value, startBlock.value - 1, false))
      && (vault !in ix.cursors && startBlock.None? ==> cur == Cursor(head, head - 1, false))
  {
  }

  /** A provider that refuses nothing, given a round per block and one more, brings the cursor to the head. */
  lemma WillingProviderFinishes(ix: Index, chain: seq<Log>, vault: string, startBlock: Option<nat>, head: int,
                                rounds: seq<Round>)
    requires Named(chain) && Sound(ix, chain)
    requires forall k :: 0 <= k < |rounds| ==> rounds[k] == Written
    requires |rounds| > 0 && |rounds| > head - StartCursor(ix, vault, startBlock, head).to
    ensures var ix' := IndexVault(ix, chain, vault, startBlock, head, rounds);
      vault in ix'.cursors && ix'.cursors[vault].done && ix'.cursors[vault].to >= head
  {
    WrittenGains(Turn(ix, StartCursor(ix, vault, startBlock, head), 0, false), chain, vault, head, rounds);
  }

  predicate AtHead(t: Turn, vault: string, head: int)
  {
    vault in t.ix.cursors && t.ix.cursors[vault].done && t.ix.cursors[vault].to >= head
  }

  lemma {:induction false} WrittenGains(t: Turn, chain: seq<Log>, vault: string, head: int, rounds: seq<Round>)
    requires t.ix.chunk >= 1 && !t.over && Holds(t.ix, vault, t.cur)
    requires forall k :: 0 <= k < |rounds| ==> rounds[k] == Written
    ensures var t' := Walk(t, chain, vault, head, rounds);
      && t'.ix.chunk >= 1 && Holds(t'.ix, vault, if t'.over then t'.cur.(done := true) else t'.cur)
      && t'.cur.to <= Max(t.cur.to, head)
      && (AtHead(t', vault, head) || (!t'.over && t'.cur.to >= t.cur.to + |rounds|))
      && (rounds != [] && t.cur.to >= head ==> t'.over)
  {
    if rounds != [] {
      WrittenGains(t, chain, vault, head, rounds[..|rounds| - 1]);
    }
  }

  // ------------------------------------------------------------------ chunk and backoff

  /** "Only ever shrinks" holds of a refusal exactly when the chunk is already at or above the floor; a
      smaller configured chunk grows to it. */
  lemma ShrinkShrinksExactly(ix: Index)
    requires ix.chunk >= 1
    ensures Shrunk(ix).chunk <= ix.chunk <==> ix.chunk >= CHUNK_FLOOR
    ensures Shrunk(ix).chunk >= CHUNK_FLOOR
  {
  }

  /** A refusal halves the chunk, down to the floor, and doubles the wait, up to the ceiling. */
  lemma ShrinkHalves(ix: Index)
    requires ix.chunk >= 1 && BackoffOk(ix)
    ensures var c := Shrunk(ix).chunk;
      if ix.chunk < 2 * CHUNK_FLOOR then c == CHUNK_FLOOR else 2 * c <= ix.chunk <= 2 * c + 1
    ensures var ms := Shrunk(ix).backoffMs;
      && (ix.backoffMs == 0 ==> ms == BACKOFF_MIN_MS)
      && (ix.backoffMs > 0 ==> (ms == 2 * ix.backoffMs || ms == BACKOFF_MAX_MS) && ms >= ix.backoffMs)
    ensures Shrunk(ix).cursors == ix.cursors && Shrunk(ix).rows == ix.rows
  {
  }

  /** One written round reads on from where the last one ended, over no more blocks than the chunk, and not past
      the head; it clears the wait and the refusals. */
  lemma RoundSpansAtMostAChunk(t: Turn, chain: seq<Log>, vault: string, head: int)
    requires t.ix.chunk >= 1 && !t.over && t.cur.to < head
    ensures var next := TakeTurn(t, chain, vault, head, Written);
      && t.cur.to < next.cur.to <= head && next.cur.to - t.cur.to <= t.ix.chunk
      && (next.cur.to < head ==> next.cur.to - t.cur.to == t.ix.chunk)
      && next.cur.from == t.cur.from && (next.cur.done <==> next.cur.to == head)
      && next.ix.rows == InsertAll(t.ix.rows, LogsIn(chain, vault, t.cur.to + 1, next.cur.to))
      && next.ix.cursors == t.ix.cursors[vault := next.cur]
      && next.ix.backoffMs == 0 && next.refusals == 0 && next.ix.chunk == t.ix.chunk && !next.over
  {
  }

  /** The other ways a round can go: only a refusal shrinks, six in a row end the tick, and whatever else goes
      wrong ends it at once with the cursor where it was. */
  lemma RoundsThatDoNotWrite(t: Turn, chain: seq<Log>, vault: string, head: int, round: Round)
    requires t.ix.chunk >= 1 && !t.over && t.cur.to < head && round != Written
    ensures var next := TakeTurn(t, chain, vault, head, round);
      && next.cur == t.cur && next.ix.cursors == t.ix.cursors
      && (round == Refused ==> next.ix == Shrunk(t.ix) && next.refusals == t.refusals + 1)
      && (round == Refused ==> (next.over <==> t.refusals + 1 >= 6))
      && (round != Refused ==> next.over && next.ix.chunk == t.ix.chunk)
      && (round != Died ==> next.ix.rows == t.ix.rows)
      && (round in {Unwritten, Died} ==> next.ix.backoffMs == 0)
      && (round == Failed ==> next.ix == t.ix)
  {
  }

  lemma SmallChunkGrows()
    ensures Shrunk(Index(100, 0, map[], [])).chunk == 250
  {
  }

  /** A configured chunk at or above the floor is never exceeded; whatever the configuration, the chunk
      is never above the larger of it and the floor. */
  lemma {:induction false} ChunkIsBounded(chain: seq<Log>, chunkBlocks: int, events: seq<Event>)
    requires chunkBlocks >= 1
    ensures 1 <= Run(chain, chunkBlocks, events).chunk <= Max(CHUNK_FLOOR, chunkBlocks)
    ensures BackoffOk(Run(chain, chunkBlocks, events))
  {
    if events != [] {
      var ix := Run(chain, chunkBlocks, events[..|events| - 1]);
      ChunkIsBounded(chain, chunkBlocks, events[..|events| - 1]);
      match events[|events| - 1]
      case Tick(vault, startBlock, head, rounds) =>
        var t := Turn(ix, StartCursor(ix, vault, startBlock, head), 0, false);
        WalkChunk(t, chain, vault, head, rounds, Max(CHUNK_FLOOR, chunkBlocks));
      case Restart =>
    }
  }

  predicate BackoffOk(ix: Index)
  {
    ix.backoffMs == 0 || BACKOFF_MIN_MS <= ix.backoffMs <= BACKOFF_MAX_MS
  }

  lemma {:induction false} WalkChunk(t: Turn, chain: seq<Log>, vault: string, head: int, rounds: seq<Round>, top: int)
    requires 1 <= t.ix.chunk <= top && CHUNK_FLOOR <= top && BackoffOk(t.ix)
    ensures 1 <= Walk(t, chain, vault, head, rounds).ix.chunk <= top
    ensures BackoffOk(Walk(t, chain, vault, head, rounds).ix)
  {
    if rounds != [] { WalkChunk(t, chain, vault, head, rounds[..|rounds| - 1], top); }
  }

  // ------------------------------------------------------------------ the indexer itself

  class EventsIndexer {
    const chain: seq<Log>
    var chunk: int
    var backoffMs: int
    var cursors: map<string, Cursor>
    var rows: seq<Log>

    function View(): Index
      reads this
    {
      Index(chunk, backoffMs, cursors, rows)
    }

    constructor (chain: seq<Log>, chunkBlocks: int)
      ensures this.chain == chain && View() == Run(chain, chunkBlocks, [])
    {
      this.chain := chain;
      chunk, backoffMs, cursors, rows := chunkBlocks, 0, map[], [];
    }

    method Shrink()
      modifies `chunk, `backoffMs
      ensures View() == Shrunk(old(View()))
    {
      chunk := if CHUNK_FLOOR > chunk / 2 then CHUNK_FLOOR else chunk / 2;
      if backoffMs == 0 {
        backoffMs := BACKOFF_MIN_MS;
      } else if backoffMs * 2 < BACKOFF_MAX_MS {
        backoffMs := backoffMs * 2;
      } else {
        backoffMs := BACKOFF_MAX_MS;
      }
    }

    method SaveCursor(vault: string, c: Cursor)
      modifies `cursors
      ensures View() == Saved(old(View()), vault, c)
    {
      cursors := cursors[vault := c];
    }

    method Ingest(logs: seq<Log>)
      modifies `rows
      ensures rows == InsertAll(old(rows), logs)
    {
      ghost var before := rows;
      for i := 0 to |logs|
        invariant rows == InsertAll(before, logs[..i])
      {
        assert logs[..i + 1][..i] == logs[..i];
        var l := logs[i];
        if l.known && !HasKey(rows, l.hash, l.index) {
          rows := rows + [l];
        }
      }
      assert logs[..|logs|] == logs;
    }

    method FetchAndStore(vault: string, cur: Cursor, head: int)
      requires cur.to < head
      modifies this
      ensures View() == Stored(old(View()), chain, vault, cur, head)
    {
      var from := cur.to + 1;
      var to := if head < from + chunk - 1 then head else from + chunk - 1;
      backoffMs := 0;
      Ingest(LogsIn(chain, vault, from, to));
    }

    method MoveCursor(vault: string, cur: Cursor, head: int) returns (next: Cursor)
      requires cur.to < head
      modifies this
      ensures next == Moved(old(View()), cur, head)
      ensures View() == Saved(Stored(old(View()), chain, vault, cur, head), vault, next)
    {
      var to := if head < cur.to + chunk then head else cur.to + chunk;
      FetchAndStore(vault, cur, head);
      next := Cursor(cur.from, to, to >= head);
      SaveCursor(vault, next);
    }

    /** The loop, with the clock and every answer left open: it ends whatever they are, because a round
        either moves the cursor toward the head or uses up a refusal. The ghost result is what the
        rounds turned out to be. */
    method IndexOne(vault: string, startBlock: Option<nat>, head: int) returns (ghost rounds: seq<Round>)
      requires chunk >= 1
      modifies this
      ensures View() == IndexVault(old(View()), chain, vault, startBlock, head, rounds)
    {
      var start := if startBlock.Some? then startBlock.value else head;
      var cur := if vault in cursors then cursors[vault] else Cursor(start, start - 1, false);
      ghost var first := Turn(View(), cur, 0, false);
      var refusals := 0;
      rounds := [];
      var inTime: bool := *;
      while inTime
        invariant chunk >= 1 && 0 <= refusals < MAX_REFUSALS
        invariant Walk(first, chain, vault, head, rounds) == Turn(View(), cur, refusals, false)
        decreases head - cur.to, MAX_REFUSALS - refusals
      {
        var answer: Round := *;
        assert (rounds + [answer])[..|rounds|] == rounds;
        rounds := rounds + [answer];
        if cur.to + 1 > head {
          if !cur.done { SaveCursor(vault, cur.(done := true)); }
          return;
        }
        match answer {
          case Refused =>
            Shrink();
            refusals := refusals + 1;
            if refusals >= MAX_REFUSALS { return; }
          case Failed =>
            return;
          case Unwritten =>
            backoffMs := 0;
            return;
          case Died =>
            FetchAndStore(vault, cur, head);
            return;
          case Written =>
            cur := MoveCursor(vault, cur, head);
            refusals := 0;
        }
        inTime := *;
      }
    }
  }
}
