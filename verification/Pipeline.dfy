/** Keeper and dashboard together: what the keeper did at each block, through its log lines, the listener's
    records and the dashboard's table, is what the dashboard's open episode shows. */
module Pipeline {
  import opened Wrappers
  import K = Keeper
  import R = KeeperRuns
  import S = StatusLog
  import L = LogRoundTrip
  import G = GateRecord
  import I = Ingest

  /** The listener's slot after finishing these cycles, from its boot. */
  function Emitted(cycles: seq<S.Cycle>): S.Slot
  {
    if cycles == [] then S.Slot(None, [], None)
    else S.Emit(Emitted(cycles[..|cycles| - 1]), cycles[|cycles| - 1])
  }

  /** Records as that slot published them: numbered from 1, with the cycle's time and contents. */
  predicate Published(recs: seq<I.Record>, cycles: seq<S.Cycle>, boot: int)
  {
    && |recs| == |cycles|
    && forall k :: 0 <= k < |recs| ==>
        && recs[k].boot == boot && recs[k].no == k + 1
        && recs[k].blockTs == cycles[k].blockTs && recs[k].cycle == S.Finalize(cycles[k].read)
  }

  function EpisodesOf(recs: seq<I.Record>): seq<I.Episode>
  {
    if recs == [] then [] else I.Advance(EpisodesOf(recs[..|recs| - 1]), recs[|recs| - 1])
  }

  lemma {:induction false} EpisodesEncode(recs: seq<I.Record>)
    ensures I.Encodes(EpisodesOf(recs), recs)
  {
    if recs != [] {
      EpisodesEncode(recs[..|recs| - 1]);
      I.AdvanceEncodes(EpisodesOf(recs[..|recs| - 1]), recs[..|recs| - 1], recs[|recs| - 1]);
      assert recs[..|recs| - 1] + [recs[|recs| - 1]] == recs;
    }
  }

  lemma {:induction false} LastIsOpen(eps: seq<I.Episode>)
    requires eps != [] && forall i :: 0 <= i < |eps| ==> (eps[i].until.None? <==> i == |eps| - 1)
    ensures I.OpenAt(eps) == Some(|eps| - 1)
  {
    if |eps| > 1 {
      assert forall i :: 0 <= i < |eps| - 1 ==> eps[1..][i] == eps[i + 1];
      LastIsOpen(eps[1..]);
    }
  }

  function StandingShown(eps: seq<I.Episode>): Option<S.Standing>
  {
    if eps == [] then None
    else
      var e := eps[|eps| - 1];
      if e.firstNo < 0 then None else Some(S.Standing(e.key, e.since, e.firstNo))
  }

  /** One more record moves the open episode exactly as it moves the standing. */
  lemma {:induction false} AdvanceMovesStanding(eps: seq<I.Episode>, rec: I.Record)
    requires rec.no >= 0
    requires eps != [] ==> I.OpenAt(eps) == Some(|eps| - 1)
    requires eps == [] ==> I.OpenAt(eps) == None
    ensures var key := S.StandingOf(rec.cycle);
      StandingShown(I.Advance(eps, rec)) ==
        if eps != [] && eps[|eps| - 1].key == key then StandingShown(eps)
        else Some(S.Standing(key, rec.blockTs, rec.no))
  {
  }

  lemma {:induction false} EmittedCounts(cycles: seq<S.Cycle>)
    ensures |Emitted(cycles).records| == |cycles|
  {
    if cycles != [] { EmittedCounts(cycles[..|cycles| - 1]); }
  }

  predicate Numbered(eps: seq<I.Episode>)
  {
    forall i :: 0 <= i < |eps| ==> eps[i].firstNo >= 0
  }

  lemma AdvanceNumbers(eps: seq<I.Episode>, rec: I.Record)
    requires Numbered(eps) && rec.no >= 0
    ensures Numbered(I.Advance(eps, rec))
  {
  }

  lemma {:induction false} OpenIsLast(recs: seq<I.Record>)
    ensures var eps := EpisodesOf(recs);
      (eps != [] ==> I.OpenAt(eps) == Some(|eps| - 1)) && (eps == [] ==> I.OpenAt(eps) == None)
  {
    EpisodesEncode(recs);
    I.EpisodesAddUp(EpisodesOf(recs), recs);
    if EpisodesOf(recs) != [] { LastIsOpen(EpisodesOf(recs)); }
  }

  lemma {:induction false} StandingMoves(eps: seq<I.Episode>, slot: S.Slot, rec: I.Record, c: S.Cycle)
    requires eps != [] ==> I.OpenAt(eps) == Some(|eps| - 1)
    requires eps == [] ==> I.OpenAt(eps) == None
    requires Numbered(eps)
    requires StandingShown(eps) == slot.standing
    requires rec.no == |slot.records| + 1 && rec.blockTs == c.blockTs && rec.cycle == S.Finalize(c.read)
    ensures StandingShown(I.Advance(eps, rec)) == S.Emit(slot, c).standing
  {
    AdvanceMovesStanding(eps, rec);
  }

  lemma PublishedPrefix(recs: seq<I.Record>, cycles: seq<S.Cycle>, boot: int)
    requires Published(recs, cycles, boot) && recs != []
    ensures Published(recs[..|recs| - 1], cycles[..|recs| - 1], boot)
  {
  }

  /** The open episode is the keeper's standing: same code and gate reason, same start, same first record. */
  lemma {:induction false} OpenEpisodeIsTheStanding(recs: seq<I.Record>, cycles: seq<S.Cycle>, boot: int)
    requires Published(recs, cycles, boot)
    ensures StandingShown(EpisodesOf(recs)) == Emitted(cycles).standing
    ensures Numbered(EpisodesOf(recs))
  {
    if recs != [] {
      var n := |recs| - 1;
      PublishedPrefix(recs, cycles, boot);
      OpenEpisodeIsTheStanding(recs[..n], cycles[..n], boot);
      OpenIsLast(recs[..n]);
      EmittedCounts(cycles[..n]);
      StandingMoves(EpisodesOf(recs[..n]), Emitted(cycles[..n]), recs[n], cycles[n]);
      AdvanceNumbers(EpisodesOf(recs[..n]), recs[n]);
    }
  }

  // --- delivery in order ---------------------------------------------------------------------

  predicate InOrder(recs: seq<I.Record>, boot: int, from: int)
  {
    forall k :: 0 <= k < |recs| ==> recs[k].boot == boot && recs[k].no == from + 1 + k
  }

  /** A column that has taken exactly these records of the boot. */
  predicate Holds(c: I.Column, done: seq<I.Record>, boot: int)
  {
    && I.CursorNo(c, boot) == |done| && I.NoneAbove(c.raw, boot, |done|)
    && c.raw == done && c.episodes == EpisodesOf(done)
  }

  lemma TakesNext(c: I.Column, done: seq<I.Record>, rec: I.Record)
    requires Holds(c, done, rec.boot) && rec.no == |done| + 1
    ensures Holds(I.Take(c, rec), done + [rec], rec.boot)
  {
    EpisodesOfMore(done, rec);
  }

  lemma {:induction false} InOrderIsComplete(c: I.Column, done: seq<I.Record>, recs: seq<I.Record>, boot: int)
    requires Holds(c, done, boot) && InOrder(recs, boot, |done|)
    ensures Holds(I.TakeAll(c, recs), done + recs, boot)
    decreases |recs|
  {
    if recs == [] {
      assert done + recs == done;
    } else {
      InOrderTail(recs, boot, |done|);
      TakesNext(c, done, recs[0]);
      InOrderIsComplete(I.Take(c, recs[0]), done + [recs[0]], recs[1..], boot);
      assert done + [recs[0]] + recs[1..] == done + recs;
    }
  }

  lemma EpisodesOfMore(recs: seq<I.Record>, rec: I.Record)
    ensures EpisodesOf(recs + [rec]) == I.Advance(EpisodesOf(recs), rec)
  {
    assert (recs + [rec])[..|recs|] == recs;
  }

  lemma InOrderTail(recs: seq<I.Record>, boot: int, from: int)
    requires InOrder(recs, boot, from) && recs != []
    ensures InOrder(recs[1..], boot, from + 1) && recs[0].boot == boot && recs[0].no == from + 1
  {
  }

  /** End to end: a dashboard that takes a boot's records in order holds all of them, and its open episode
      is the standing the keeper itself reports. */
  lemma DashboardShowsTheStanding(recs: seq<I.Record>, cycles: seq<S.Cycle>, boot: int)
    requires Published(recs, cycles, boot)
    ensures var c := I.TakeAll(I.EMPTY, recs);
      c.raw == recs && StandingShown(c.episodes) == Emitted(cycles).standing
  {
    InOrderIsComplete(I.EMPTY, [], recs, boot);
    assert [] + recs == recs;
    OpenEpisodeIsTheStanding(recs, cycles, boot);
  }

  // --- from the evaluations themselves -----------------------------------------------------------

  /** One evaluated block of a running process: what the listener is told of it, and what was read. */
  datatype Look = Look(block: nat, blockTs: int, wallTs: int, i: K.Inputs)

  function EventsOf(looks: seq<Look>): seq<R.Event>
  {
    if looks == [] then [] else EventsOf(looks[..|looks| - 1]) + [R.Block(looks[|looks| - 1].i)]
  }

  /** The keeper's memory when it comes to block `k`. */
  function Before(cfg: K.Config, bootTs: int, looks: seq<Look>, k: nat): K.KeeperState
    requires cfg.spacing > 0 && k <= |looks|
  {
    R.Run(cfg, bootTs, EventsOf(looks[..k]))
  }

  function LinesAt(cfg: K.Config, bootTs: int, looks: seq<Look>, k: nat): seq<K.Line>
    requires cfg.spacing > 0 && k < |looks|
  {
    K.Evaluate(cfg, Before(cfg, bootTs, looks, k), looks[k].i).report.lines
  }

  /** The listener's slot after hearing every line of every block. */
  function Heard(cfg: K.Config, bootTs: int, looks: seq<Look>): S.Slot
    requires cfg.spacing > 0
  {
    if looks == [] then S.Slot(None, [], None)
    else
      var n := |looks| - 1;
      var l := looks[n];
      var slot := S.OpenSlot(Heard(cfg, bootTs, looks[..n]), l.block, l.blockTs);
      S.EndSlot(L.Feed(slot, l.block, LinesAt(cfg, bootTs, looks, n), l.wallTs))
  }

  function CycleAt(cfg: K.Config, bootTs: int, looks: seq<Look>, k: nat): S.Cycle
    requires cfg.spacing > 0 && k < |looks|
  {
    S.Cycle(looks[k].block, looks[k].blockTs, true, S.ParseAll(S.UNREAD, LinesAt(cfg, bootTs, looks, k)))
  }

  predicate AreCycles(cfg: K.Config, bootTs: int, looks: seq<Look>, cycles: seq<S.Cycle>)
    requires cfg.spacing > 0
  {
    |cycles| == |looks| && forall k :: 0 <= k < |looks| ==> cycles[k] == CycleAt(cfg, bootTs, looks, k)
  }

  lemma SomethingIsPrinted(cfg: K.Config, s: K.KeeperState, i: K.Inputs)
    requires cfg.spacing > 0
    ensures K.Evaluate(cfg, s, i).report.lines != []
  {
    L.RecordTellsTheEvaluation(cfg, s, i);
  }

  lemma CyclesPrefix(cfg: K.Config, bootTs: int, looks: seq<Look>, cycles: seq<S.Cycle>)
    requires cfg.spacing > 0 && AreCycles(cfg, bootTs, looks, cycles) && looks != []
    ensures AreCycles(cfg, bootTs, looks[..|looks| - 1], cycles[..|looks| - 1])
  {
    forall k | 0 <= k < |looks| - 1
      ensures CycleAt(cfg, bootTs, looks[..|looks| - 1], k) == CycleAt(cfg, bootTs, looks, k)
    {
      assert looks[..|looks| - 1][..k] == looks[..k];
    }
  }

  lemma HeardOne(slot: S.Slot, l: Look, lines: seq<K.Line>)
    requires slot.pending.None? && lines != []
    ensures S.EndSlot(L.Feed(S.OpenSlot(slot, l.block, l.blockTs), l.block, lines, l.wallTs))
         == S.Emit(slot, S.Cycle(l.block, l.blockTs, true, S.ParseAll(S.UNREAD, lines)))
  {
    L.FeedIsParse(S.OpenSlot(slot, l.block, l.blockTs), l.block, lines, l.wallTs);
  }

  /** What the listener heard is one finished cycle per evaluated block. */
  lemma {:induction false} HeardIsEmitted(cfg: K.Config, bootTs: int, looks: seq<Look>, cycles: seq<S.Cycle>)
    requires cfg.spacing > 0 && AreCycles(cfg, bootTs, looks, cycles)
    ensures Heard(cfg, bootTs, looks) == Emitted(cycles) && Emitted(cycles).pending.None?
  {
    if looks != [] {
      var n := |looks| - 1;
      CyclesPrefix(cfg, bootTs, looks, cycles);
      HeardIsEmitted(cfg, bootTs, looks[..n], cycles[..n]);
      SomethingIsPrinted(cfg, Before(cfg, bootTs, looks, n), looks[n].i);
      HeardOne(Emitted(cycles[..n]), looks[n], LinesAt(cfg, bootTs, looks, n));
    }
  }

  function KeyOf(c: S.Cycle): S.StandingKey
  {
    S.StandingOf(S.Finalize(c.read))
  }

  /** The unbroken stretch of equal keys that ends the history, and its first cycle. */
  predicate Stretch(keys: seq<S.StandingKey>, first: nat)
  {
    && first < |keys|
    && (forall k :: first <= k < |keys| ==> keys[k] == keys[|keys| - 1])
    && (first > 0 ==> keys[first - 1] != keys[|keys| - 1])
  }

  function KeysOf(cycles: seq<S.Cycle>): (keys: seq<S.StandingKey>)
    ensures |keys| == |cycles| && forall k :: 0 <= k < |cycles| ==> keys[k] == KeyOf(cycles[k])
  {
    seq(|cycles|, k requires 0 <= k < |cycles| => KeyOf(cycles[k]))
  }

  lemma StretchGrows(keys: seq<S.StandingKey>, first: nat, key: S.StandingKey)
    requires Stretch(keys, first)
    ensures Stretch(keys + [key], if key == keys[|keys| - 1] then first else |keys|)
  {
  }

  lemma KeysOfMore(cycles: seq<S.Cycle>)
    requires cycles != []
    ensures KeysOf(cycles) == KeysOf(cycles[..|cycles| - 1]) + [KeyOf(cycles[|cycles| - 1])]
  {
  }

  predicate StandsSince(standing: Option<S.Standing>, keys: seq<S.StandingKey>, cycles: seq<S.Cycle>, first: nat)
  {
    && |keys| == |cycles| && Stretch(keys, first)
    && standing == Some(S.Standing(keys[|keys| - 1], cycles[first].blockTs, first + 1))
  }

  lemma StandsOn(slot: S.Slot, keys: seq<S.StandingKey>, cycles: seq<S.Cycle>, first: nat, c: S.Cycle)
    requires StandsSince(slot.standing, keys, cycles, first) && |slot.records| == |cycles|
    ensures StandsSince(S.Emit(slot, c).standing, keys + [KeyOf(c)], cycles + [c],
                        if KeyOf(c) == keys[|keys| - 1] then first else |keys|)
  {
    StretchGrows(keys, first, KeyOf(c));
  }

  lemma StandingStarts(cycles: seq<S.Cycle>)
    requires |cycles| == 1
    ensures StandsSince(Emitted(cycles).standing, KeysOf(cycles), cycles, 0)
  {
    EmittedCounts(cycles[..0]);
    assert Emitted(cycles) == S.Emit(S.Slot(None, [], None), cycles[0]);
  }

  lemma StandingStep(cycles: seq<S.Cycle>, first: nat) returns (next: nat)
    requires |cycles| > 1
    requires var before := cycles[..|cycles| - 1]; StandsSince(Emitted(before).standing, KeysOf(before), before, first)
    ensures StandsSince(Emitted(cycles).standing, KeysOf(cycles), cycles, next)
  {
    var before, last := cycles[..|cycles| - 1], cycles[|cycles| - 1];
    EmittedCounts(before);
    KeysOfMore(cycles);
    StandsOn(Emitted(before), KeysOf(before), before, first, last);
    assert cycles == before + [last];
    next := if KeyOf(last) == KeysOf(before)[|before| - 1] then first else |before|;
  }

  /** The standing is that stretch: its key, when it began, and its first record. */
  lemma {:induction false} StandingIsStretch(cycles: seq<S.Cycle>) returns (first: nat)
    requires cycles != []
    ensures StandsSince(Emitted(cycles).standing, KeysOf(cycles), cycles, first)
  {
    if |cycles| == 1 {
      StandingStarts(cycles);
      first := 0;
    } else {
      first := StandingIsStretch(cycles[..|cycles| - 1]);
      first := StandingStep(cycles, first);
    }
  }

  function ShownAfter(recs: seq<I.Record>): Option<S.Standing>
  {
    StandingShown(I.TakeAll(I.EMPTY, recs).episodes)
  }

  lemma ShownIsStretch(recs: seq<I.Record>, cycles: seq<S.Cycle>, boot: int) returns (first: nat)
    requires Published(recs, cycles, boot) && cycles != []
    ensures ShownAfter(recs) == Emitted(cycles).standing
    ensures StandsSince(ShownAfter(recs), KeysOf(cycles), cycles, first)
  {
    DashboardShowsTheStanding(recs, cycles, boot);
    first := StandingIsStretch(cycles);
  }

  /** The keys of the evaluations themselves. */
  function TrueKeyAt(cfg: K.Config, bootTs: int, looks: seq<Look>, k: nat): S.StandingKey
    requires cfg.spacing > 0 && k < |looks|
  {
    G.TrueKey(cfg, Before(cfg, bootTs, looks, k), looks[k].i)
  }

  function TrueKeys(cfg: K.Config, bootTs: int, looks: seq<Look>): (keys: seq<S.StandingKey>)
    requires cfg.spacing > 0
    ensures |keys| == |looks| && forall k :: 0 <= k < |looks| ==> keys[k] == TrueKeyAt(cfg, bootTs, looks, k)
  {
    seq(|looks|, k requires 0 <= k < |looks| => TrueKeyAt(cfg, bootTs, looks, k))
  }

  predicate MisreportedAt(cfg: K.Config, bootTs: int, looks: seq<Look>, k: nat)
    requires cfg.spacing > 0 && k < |looks|
  {
    G.Misreported(cfg, Before(cfg, bootTs, looks, k), looks[k].i)
  }

  lemma KeyAtTells(cfg: K.Config, bootTs: int, looks: seq<Look>, cycles: seq<S.Cycle>, k: nat)
    requires cfg.spacing > 0 && AreCycles(cfg, bootTs, looks, cycles) && k < |looks|
    ensures KeyOf(cycles[k]) == TrueKeyAt(cfg, bootTs, looks, k) <==> !MisreportedAt(cfg, bootTs, looks, k)
  {
    G.KeyTellsTheEvaluation(cfg, Before(cfg, bootTs, looks, k), looks[k].i);
  }

  /** End to end: over any run of evaluated blocks, a dashboard that took the boot's records in order shows
      as its open episode the keeper's own standing, and its key is the exit and gate failure of the last
      evaluation exactly when that one was not misreported. */
  lemma DashboardShowsTheKeeper(cfg: K.Config, bootTs: int, looks: seq<Look>, cycles: seq<S.Cycle>,
                                recs: seq<I.Record>, boot: int)
    requires cfg.spacing > 0 && looks != [] && AreCycles(cfg, bootTs, looks, cycles)
    requires Published(recs, cycles, boot)
    ensures var shown, n := ShownAfter(recs), |looks| - 1;
      && shown.Some? && shown == Heard(cfg, bootTs, looks).standing
      && (shown.value.key == TrueKeyAt(cfg, bootTs, looks, n) <==> !MisreportedAt(cfg, bootTs, looks, n))
  {
    HeardIsEmitted(cfg, bootTs, looks, cycles);
    var first := ShownIsStretch(recs, cycles, boot);
    KeyAtTells(cfg, bootTs, looks, cycles, |looks| - 1);
  }

  lemma KeysAreTrue(cfg: K.Config, bootTs: int, looks: seq<Look>, cycles: seq<S.Cycle>)
    requires cfg.spacing > 0 && AreCycles(cfg, bootTs, looks, cycles)
    requires forall k :: 0 <= k < |looks| ==> !MisreportedAt(cfg, bootTs, looks, k)
    ensures KeysOf(cycles) == TrueKeys(cfg, bootTs, looks)
  {
    forall k | 0 <= k < |looks| ensures KeyOf(cycles[k]) == TrueKeyAt(cfg, bootTs, looks, k) {
      KeyAtTells(cfg, bootTs, looks, cycles, k);
    }
  }

  /** And where nothing was misreported, the episode began with the first evaluation of the unbroken stretch
      that ended the way the last one did. */
  lemma EpisodeIsTheStretch(cfg: K.Config, bootTs: int, looks: seq<Look>, cycles: seq<S.Cycle>,
                            recs: seq<I.Record>, boot: int) returns (first: nat)
    requires cfg.spacing > 0 && looks != [] && AreCycles(cfg, bootTs, looks, cycles)
    requires Published(recs, cycles, boot)
    requires forall k :: 0 <= k < |looks| ==> !MisreportedAt(cfg, bootTs, looks, k)
    ensures Stretch(TrueKeys(cfg, bootTs, looks), first)
    ensures ShownAfter(recs)
         == Some(S.Standing(TrueKeyAt(cfg, bootTs, looks, |looks| - 1), looks[first].blockTs, first + 1))
  {
    first := ShownIsStretch(recs, cycles, boot);
    KeysAreTrue(cfg, bootTs, looks, cycles);
  }
}
