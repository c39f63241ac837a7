/** Two concrete runs in which a transaction is mined without the keeper learning of it: the dwell is
    served once for two landings, and the keeper's own interval is not kept. */
module Overlaps {
  import opened Wrappers
  import opened Ticks
  import Decide
  import opened Regime
  import opened Keeper
  import opened KeeperRuns
  import opened RebalanceProxy
  import opened BoundedMotion

  /** Spacing 60, a re-center past one spacing of drift, a dwell of 7 s, and any floor between rebalances. */
  function Settings(proxied: bool, floor: nat): Config
  {
    Config(60, 10, 30, 1, 1, false, 120, false, 0.4, 0.05, floor, 7, true, 3600, 600, 100, false, false,
           600, 200, false, Thresholds(3.0, 0.02, 0.08, 7200), false, false, 3600, false, 300, proxied, false)
  }

  const START := Band(-600, 600)

  /** Centred on the hour's average of 200, which spot is 90 ticks above. */
  const PLACED := Band(-420, 840)

  function At(base: Band): Position
  {
    Position(290, base, Band(660, 720), 1, Decide.Legs(1.0, 0.0), None, None)
  }

  /** Caps with room to spare, read while no rebalance has been stamped. */
  predicate Roomy(caps: Option<ProxyCaps>)
  {
    caps.Some? ==>
      caps.value.maxTranslation == 1000 && caps.value.maxWidth == 1000 && caps.value.lastRebalanceTs == 0
  }

  function Tick(now: int, base: Band, caps: Option<ProxyCaps>, submission: Submission): Inputs
  {
    Inputs(now, Some(At(base)), caps, Some(7200), Some(200), None, None, Missed(false), NothingToSweep,
           Some(false), true, Above, true, submission)
  }

  /** The state once the trigger has been seen at 990. */
  function Waiting(): KeeperState
  {
    InitialState(0).(dwellSince := 990)
  }

  lemma SeesDrift(proxied: bool, floor: nat, base: Band)
    requires base == START || base == PLACED
    ensures var d := Triggers(Settings(proxied, floor), At(base)); d.Decided? && d.winner == Recenter
  {
  }

  lemma GateIsOpen(proxied: bool, floor: nat, i: Inputs, now: int, base: Band, caps: Option<ProxyCaps>,
                   submission: Submission)
    requires i == Tick(now, base, caps, submission)
    ensures CheckPrice(Settings(proxied, floor), i, 290) == Gate(None, Some(200), None, true, [TwapOk(200, 90)])
  {
  }

  lemma AimsAtPlaced(proxied: bool, floor: nat, base: Band, caps: Option<ProxyCaps>)
    requires base == START || base == PLACED
    requires Roomy(caps)
    ensures PlanBase(Settings(proxied, floor), Recenter, base, caps, 200, 10) == BaseAt(PLACED, false)
  {
    CenteredBandExact(200, 10, 60);
  }

  /** At 990 the trigger is seen for the first time, and nothing is sent. */
  lemma FirstSight(proxied: bool, floor: nat, caps: Option<ProxyCaps>)
    ensures var step := Evaluate(Settings(proxied, floor), InitialState(0), Tick(990, START, caps, NotMined));
      step.state == Waiting() && step.report.mined.None? && step.report.exit == ExitArming
  {
    SeesDrift(proxied, floor, START);
  }

  function SentPlan(): Plan
  {
    Plan(Recenter, PLACED, LimitRange(290, 60, Above, 1), Above)
  }

  lemma PlacesPlan(proxied: bool, floor: nat, s: KeeperState, i: Inputs, now: int, base: Band, caps: Option<ProxyCaps>,
                   submission: Submission, said: seq<Line>)
    requires base == START || base == PLACED
    requires i == Tick(now, base, caps, submission)
    requires Roomy(caps)
    ensures exists lines ::
      Place(Settings(proxied, floor), s, i, At(base), Recenter, caps, 200, 10, said) == Submit(s, i, SentPlan(), lines)
  {
    AimsAtPlaced(proxied, floor, base, caps);
    assert said + [] == said;
    assert Place(Settings(proxied, floor), s, i, At(base), Recenter, caps, 200, 10, said)
        == Submit(s, i, SentPlan(), said + [] + [PlanLine(SentPlan())] + [Submitting]);
  }

  /** Past the cooldown, the plan is sent. */
  lemma SendsPlan(proxied: bool, floor: nat, s: KeeperState, i: Inputs, now: int, base: Band, caps: Option<ProxyCaps>,
                  submission: Submission, said: seq<Line>)
    requires base == START || base == PLACED
    requires i == Tick(now, base, caps, submission)
    requires Roomy(caps)
    ensures exists lines ::
      AfterCooldown(Settings(proxied, floor), s, i, At(base), Recenter, caps, true, false, said)
      == Submit(s, i, SentPlan(), lines)
  {
    GateIsOpen(proxied, floor, i, now, base, caps, submission);
    PlacesPlan(proxied, floor, s, i, now, base, caps, submission, said + [TwapOk(200, 90)]);
  }

  /** Any later evaluation that still has the clock from 990 and no stamp to cool down from sends the plan. */
  lemma ArmedSends(proxied: bool, floor: nat, now: int, base: Band, caps: Option<ProxyCaps>, submission: Submission)
    requires base == START || base == PLACED
    requires now >= 997
    requires caps.Some? == proxied && Roomy(caps)
    ensures var i := Tick(now, base, caps, submission);
      exists lines :: Evaluate(Settings(proxied, floor), Waiting(), i) == Submit(Waiting(), i, SentPlan(), lines)
  {
    var i := Tick(now, base, caps, submission);
    SeesDrift(proxied, floor, base);
    var d := Triggers(Settings(proxied, floor), At(base));
    var said := [Summary(290, base, Recenter, false, d.reason)];
    assert StepDwells(Waiting(), Recenter, now) == Waiting();
    assert ArmingLines(Settings(proxied, floor), Waiting(), Recenter, now) == [];
    assert said + [] == said;
    SendsPlan(proxied, floor, Waiting(), i, now, base, caps, submission, said);
  }

  // --- one dwell, two landings ----------------------------------------------------------------

  function Lost(): seq<Event>
  {
    [Block(Tick(990, START, None, NotMined)), Block(Tick(1000, START, None, MinedUnseen(1001)))]
  }

  lemma LostLeavesTheClock(floor: nat)
    ensures KeeperRuns.Run(Settings(false, floor), 0, Lost()[..0]) == InitialState(0)
    ensures KeeperRuns.Run(Settings(false, floor), 0, Lost()[..1]) == Waiting()
    ensures KeeperRuns.Run(Settings(false, floor), 0, Lost()) == Waiting()
  {
    FirstSight(false, floor, None);
    ArmedSends(false, floor, 1000, START, None, MinedUnseen(1001));
    TwoBlocks(Settings(false, floor), Tick(990, START, None, NotMined), Tick(1000, START, None, MinedUnseen(1001)));
  }

  lemma LostIsMined(floor: nat)
    ensures MinedAt(Settings(false, floor), 0, Lost(), 1) && UnseenAt(Settings(false, floor), 0, Lost(), 1)
    ensures !LearnedAt(Settings(false, floor), 0, Lost(), 1)
  {
    LostLeavesTheClock(floor);
    ArmedSends(false, floor, 1000, START, None, MinedUnseen(1001));
  }

  lemma LostIsOneStretch(floor: nat)
    ensures HeldFrom(Settings(false, floor), 0, Lost(), Recenter, 0)
  {
    LostLeavesTheClock(floor);
    LostIsMined(floor);
    FirstSight(false, floor, None);
    SeesDrift(false, floor, START);
    assert Continues(Settings(false, floor), 0, Lost(), 0, Recenter);
    assert Continues(Settings(false, floor), 0, Lost(), 1, Recenter);
  }

  /** In direct mode: sent at 1000 and mined at 1001 with the confirmation lost; at 1012 the band has moved,
      spot is still off its centre, and the clock from 990 still counts. */
  lemma OneDwellTwoLandings(floor: nat)
    ensures var cfg, h := Settings(false, floor), Lost();
      var step := Evaluate(cfg, KeeperRuns.Run(cfg, 0, h), Tick(1012, PLACED, None, Confirmed(1013)));
      && WellFormed(cfg) && TimesNonZero(h)
      && UnseenAt(cfg, 0, h, 1) && HeldFrom(cfg, 0, h, Recenter, 0)
      && step.report.exit == ExitLanded && step.report.mined == Some(1013)
  {
    LostLeavesTheClock(floor);
    LostIsMined(floor);
    LostIsOneStretch(floor);
    ArmedSends(false, floor, 1012, PLACED, None, Confirmed(1013));
  }

  lemma TwoBlocks(cfg: Config, a: Inputs, b: Inputs)
    requires cfg.spacing > 0
    ensures var h := [Block(a), Block(b)]; var s := Evaluate(cfg, InitialState(0), a).state;
      && KeeperRuns.Run(cfg, 0, h[..0]) == InitialState(0) && KeeperRuns.Run(cfg, 0, h[..1]) == s
      && KeeperRuns.Run(cfg, 0, h) == Evaluate(cfg, s, b).state
  {
    var h := [Block(a), Block(b)];
    assert h[..1] == [Block(a)] && h[..0] == [] && [Block(a)][..0] == [];
  }

  // --- the keeper's interval not kept ------------------------------------------------------------

  /** Any interval of the proxy's own. */
  function Caps(interval: nat): Option<ProxyCaps>
  {
    Some(ProxyCaps(1000, 1000, interval, 0, false))
  }

  function Governed(interval: nat): Limits
  {
    Limits(1000, 1000, interval)
  }

  function Origin(): World
  {
    World(InitialState(0), START, 0, [], [])
  }

  /** Sent at 1000 with the confirmation lost, sent again at 1012 while the first is still on its way; one is
      mined at 1100, the other as soon as the proxy takes it. */
  function Overlapping(interval: nat): seq<Happening>
  {
    [Runs(Block(Tick(990, START, Caps(interval), NotMined))),
     Runs(Block(Tick(1000, START, Caps(interval), MinedUnseen(1100)))),
     Runs(Block(Tick(1012, START, Caps(interval), Confirmed(1100 + interval)))),
     Mines(0), Mines(0)]
  }

  function FirstTx(): Tx { Tx(PLACED, 1100, 0) }

  function SecondTx(interval: nat): Tx { Tx(PLACED, 1100 + interval, 0) }

  function BothLandings(interval: nat): seq<Landing>
  {
    [Landing(1100, START, PLACED, 0), Landing(1100 + interval, PLACED, PLACED, 0)]
  }

  /** The run up to the n-th happening. */
  function Upto(floor: nat, interval: nat, n: nat): World
    requires n <= 5
  {
    RunWorld(Settings(true, floor), Governed(interval), Origin(), Overlapping(interval)[..n])
  }

  predicate TrueUpto(floor: nat, interval: nat, n: nat)
    requires n <= 5
  {
    HonestRun(Settings(true, floor), Governed(interval), Origin(), Overlapping(interval)[..n])
  }

  lemma OneMore(floor: nat, interval: nat, n: nat)
    requires n < 5
    ensures var lim, x := Governed(interval), Overlapping(interval)[n];
      && Upto(floor, interval, n + 1) == StepWorld(Settings(true, floor), lim, Upto(floor, interval, n), x)
      && (TrueUpto(floor, interval, n) && Honest(lim, Upto(floor, interval, n), x) ==> TrueUpto(floor, interval, n + 1))
  {
    assert Overlapping(interval)[..n + 1][..n] == Overlapping(interval)[..n];
  }

  lemma OneMoreCareful(floor: nat, interval: nat, n: nat)
    requires n < 5
    requires CarefulRun(Settings(true, floor), Governed(interval), Origin(), Overlapping(interval)[..n + 1])
    ensures CarefulRun(Settings(true, floor), Governed(interval), Origin(), Overlapping(interval)[..n])
    ensures Careful(Settings(true, floor), Upto(floor, interval, n), Overlapping(interval)[n])
  {
    assert Overlapping(interval)[..n + 1][..n] == Overlapping(interval)[..n];
  }

  lemma AfterFirst(floor: nat, interval: nat)
    ensures Upto(floor, interval, 1) == Origin().(keeper := Waiting())
  {
    OneMore(floor, interval, 0);
    FirstSight(true, floor, Caps(interval));
  }

  /** An armed evaluation puts its transaction on the way; only a confirmed one restarts the clocks. */
  lemma SendsIn(floor: nat, interval: nat, w: World, now: int, submission: Submission)
    requires w.keeper == Waiting() && now >= 997 && !submission.NotMined?
    ensures EvaluateIn(Settings(true, floor), w, Tick(now, START, Caps(interval), submission)) ==
      w.(keeper := if submission.Confirmed? then Landed(Waiting(), now) else Waiting(),
         pending := w.pending + [Tx(PLACED, submission.landTs, |w.landings|)])
  {
    ArmedSends(true, floor, now, START, Caps(interval), submission);
  }

  lemma AfterSecond(floor: nat, interval: nat)
    ensures Upto(floor, interval, 2) == Origin().(keeper := Waiting(), pending := [FirstTx()])
  {
    AfterFirst(floor, interval);
    OneMore(floor, interval, 1);
    SendsIn(floor, interval, Upto(floor, interval, 1), 1000, MinedUnseen(1100));
  }

  lemma AfterThird(floor: nat, interval: nat)
    ensures Upto(floor, interval, 3)
         == Origin().(keeper := Landed(Waiting(), 1012), pending := [FirstTx(), SecondTx(interval)])
  {
    AfterSecond(floor, interval);
    OneMore(floor, interval, 2);
    SendsIn(floor, interval, Upto(floor, interval, 2), 1012, Confirmed(1100 + interval));
  }

  lemma OneMoreMined(floor: nat, interval: nat, n: nat)
    requires (n == 3 || n == 4) && Upto(floor, interval, n).pending != []
    ensures Upto(floor, interval, n + 1) == MineTx(Governed(interval), Upto(floor, interval, n), 0)
  {
    OneMore(floor, interval, n);
  }

  lemma AfterMining(floor: nat, interval: nat)
    ensures Upto(floor, interval, 4).stampTs == 1100 && Upto(floor, interval, 4).pending == [SecondTx(interval)]
    ensures Upto(floor, interval, 5).landings == BothLandings(interval)
  {
    AfterThird(floor, interval);
    MiningBoth(interval, Upto(floor, interval, 3));
    OneMoreMined(floor, interval, 3);
    OneMoreMined(floor, interval, 4);
  }

  lemma MiningBoth(interval: nat, w: World)
    requires w.base == START && w.stampTs == 0 && w.landings == [] && w.pending == [FirstTx(), SecondTx(interval)]
    ensures var first := MineTx(Governed(interval), w, 0);
      && first == World(w.keeper, PLACED, 1100, [Landing(1100, START, PLACED, 0)], [SecondTx(interval)])
      && MineTx(Governed(interval), first, 0)
         == World(w.keeper, PLACED, 1100 + interval, BothLandings(interval), [])
  {
    assert Without([FirstTx(), SecondTx(interval)], 0) == [SecondTx(interval)];
    assert Without([SecondTx(interval)], 0) == [];
    ProxyMidIsBandMid(START);
    ProxyMidIsBandMid(PLACED);
    assert [Landing(1100, START, PLACED, 0)] + [Landing(1100 + interval, PLACED, PLACED, 0)] == BothLandings(interval);
    assert [] + [Landing(1100, START, PLACED, 0)] == [Landing(1100, START, PLACED, 0)];
  }

  lemma EvaluationsReadTrue(floor: nat, interval: nat)
    ensures TrueUpto(floor, interval, 2)
  {
    OneMore(floor, interval, 0);
    AfterFirst(floor, interval);
    OneMore(floor, interval, 1);
  }

  lemma OverlapReadsTrue(floor: nat, interval: nat)
    ensures TrueUpto(floor, interval, 3)
  {
    EvaluationsReadTrue(floor, interval);
    AfterSecond(floor, interval);
    OneMore(floor, interval, 2);
  }

  lemma EveryReadIsTrue(floor: nat, interval: nat)
    ensures TrueUpto(floor, interval, 5)
  {
    OverlapReadsTrue(floor, interval);
    MinesInOrder(floor, interval);
    OneMore(floor, interval, 3);
    OneMore(floor, interval, 4);
  }

  lemma MinesInOrder(floor: nat, interval: nat)
    ensures Honest(Governed(interval), Upto(floor, interval, 3), Mines(0))
    ensures Honest(Governed(interval), Upto(floor, interval, 4), Mines(0))
  {
    AfterThird(floor, interval);
    AfterMining(floor, interval);
  }

  /** The third evaluation sends over the second's transaction. */
  lemma SendsOver(floor: nat, interval: nat)
    ensures !Careful(Settings(true, floor), Upto(floor, interval, 2), Overlapping(interval)[2])
  {
    AfterSecond(floor, interval);
    ArmedSends(true, floor, 1012, START, Caps(interval), Confirmed(1100 + interval));
  }

  lemma ThirdIsNotCareful(floor: nat, interval: nat)
    ensures !CarefulRun(Settings(true, floor), Governed(interval), Origin(), Overlapping(interval)[..5])
  {
    SendsOver(floor, interval);
    if CarefulRun(Settings(true, floor), Governed(interval), Origin(), Overlapping(interval)[..5]) {
      OneMoreCareful(floor, interval, 4);
      OneMoreCareful(floor, interval, 3);
      OneMoreCareful(floor, interval, 2);
    }
  }

  /** Two landings no further apart than the proxy insists, whatever the floor, in a run where every read is
      true. */
  lemma OverlapBreaksTheFloor(floor: nat, interval: nat)
    ensures var cfg, lim, h := Settings(true, floor), Governed(interval), Overlapping(interval);
      && WellFormed(cfg) && cfg.proxied && HonestRun(cfg, lim, Origin(), h)
      && !CarefulRun(cfg, lim, Origin(), h)
      && IntervalSecs(cfg, lim) == Max(floor, interval)
      && RunWorld(cfg, lim, Origin(), h).landings == BothLandings(interval)
  {
    assert Overlapping(interval)[..5] == Overlapping(interval);
    EveryReadIsTrue(floor, interval);
    ThirdIsNotCareful(floor, interval);
    AfterMining(floor, interval);
  }

  /** Over every run of true reads, landings keep the longer of the two intervals. */
  ghost predicate EveryRunIsPaced(cfg: Config, lim: Limits, w: World)
    requires cfg.spacing > 0
  {
    forall h :: HonestRun(cfg, lim, w, h) ==> Paced(lim, IntervalSecs(cfg, lim), RunWorld(cfg, lim, w, h).landings)
  }

  /** For this keeper that is so exactly when the proxy's own interval is at least the keeper's floor: a floor
      above it is not worth anything over every run. */
  lemma FloorIsKeptExactly(floor: nat, interval: nat)
    ensures EveryRunIsPaced(Settings(true, floor), Governed(interval), Origin()) <==> interval >= floor
  {
    var cfg, lim := Settings(true, floor), Governed(interval);
    if interval >= floor {
      forall h | HonestRun(cfg, lim, Origin(), h)
        ensures Paced(lim, IntervalSecs(cfg, lim), RunWorld(cfg, lim, Origin(), h).landings)
      {
        EveryRunIsPacedByTheProxy(cfg, lim, Origin(), h);
      }
    } else {
      OverlapBreaksTheFloor(floor, interval);
      BothAreTooClose(floor, interval);
    }
  }

  lemma BothAreTooClose(floor: nat, interval: nat)
    requires interval < floor
    ensures !Paced(Governed(interval), Max(floor, interval), BothLandings(interval))
  {
    assert BothLandings(interval)[1].ts - BothLandings(interval)[0].ts == interval;
  }
}
