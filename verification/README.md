# Vault keeper: a verified model

The repository runs an off-chain keeper for a Uniswap v3 liquidity vault, a watchdog that raises
alerts, and a dashboard that indexes what both report. This project models the parts whose behaviour
spans many steps, and proves what they keep over whole runs.

| file | component | what is proved about it |
|---|---|---|
| `Ticks`, `Decide` | grid arithmetic, the triggers | exact shapes, when a placement clears its own trigger |
| `Keeper`, `KeeperProcess` | one evaluation, as functions and as the class that changes state | the class computes the functions |
| `Outcomes` | the evaluation as a flat table of ends and of what it remembers | every staged evaluation follows it |
| `KeeperRuns` | runs with restarts | dwell safety, both directions, for landings the keeper never learned of too |
| `PriceSafety`, `FeedTrail` | the price gates and the feed's history, seen from the plans | no plan or sweep on a distrusted price, none in a crash; spot cannot choose where the band goes |
| `RebalanceProxy`, `BoundedMotion` | the on-chain limits, with transactions on their way | what paces landings over every interleaving of evaluations, blocks and restarts; band motion over time |
| `Overlaps` | transactions the keeper lost sight of | concrete runs that break the keeper's own floor and its dwell |
| `BandWalk`, `Settling` | repeated landings, and the keeper's runs that make them | when every vault settles, how fast, and when not |
| `Regime`, `PriceTrail` | hysteresis, price trail | clock = quiet stretch; pruned trail = full log |
| `StatusLog`, `LogRoundTrip`, `GateRecord`, `RecordDetails` | log lines to records | the record names the exit taken, the gate that failed and what else happened, and exactly when it does not |
| `FeesOwed`, `PoolOracle`, `Mins`, `PriceMath` | accounting | each equals its simple meaning |
| `Sse`, `CatchUp`, `LogTail`, `Ingest`, `Backfill` | the dashboard's feeds and tables | round trips, once-only counting, encodings, coverage |
| `Pipeline` | keeper and dashboard together | from evaluations through log lines and records to the open episode: it tells the keeper's last exit, and exactly when not |
| `Alerts` | the watchdog | the trace of every key, over every run |

Code that updates fields is a class whose methods are proved equal to functions of the old state; the
theorems are about those functions and the runs made of them. Code that only computes is functions.
Quantities the source keeps in floating point are reals; on-chain and bigint quantities are integers
with their wraps written out (section 6.3 and 6.4 of the Uniswap v3 Core whitepaper for fee growth,
section 5 for the oracle). Blocks, reads, clocks, submissions and provider answers are inputs.

## Where the code and its comments differ

The model follows the code; each difference is a lemma.

- "Repeated rebalances then converge" (`keeper/src/ticks.ts:47-51`) holds exactly when the walk's step,
  the translation cap less two spacings, is at least half a spacing: `BandWalk.SettlesExactly`. With
  spacing 60 and cap 121 the band [-600, 660] walks to itself: `BandWalk.StuckAtSpacingSixty`.
- A refresh clears its own trigger exactly when `LIMIT_REFRESH_TICKS >= 2*spacing - 1`, because the
  placement rounds toward zero: `Decide.PlacedLimitIsQuietExactly`. The "equals the tick" branch of
  `limitRange` never runs: `Ticks.LimitAnchor`.
- The drift trigger and the clamp round a band's middle differently, by one tick, on negative odd
  sums: `Decide.MidsDiffer`.
- The log grammar's numbers carry no sign, so an arming or cooldown line printed with a negative number
  (a clock behind the last landing's stamp) is not recognised and the cycle is recorded as a hold:
  `LogRoundTrip.RecordTellsTheEvaluation`, `LogRoundTrip.MisprintExample`.
- The keeper's own interval between rebalances is not kept when a transaction outlives the evaluation
  that sent it (`keeper/src/submit.ts:10-16` throws after broadcast, or the process restarts while it
  waits): until it is mined the next evaluation reads the old stamp and may send again. Only the proxy's
  interval and caps then hold: `BoundedMotion.OnlyOverlapsBreakTheFloor`,
  `BoundedMotion.OverlapKeepsFloorExactly`, `Overlaps.OverlapBreaksTheFloor`. Over every run the floor
  is kept exactly when the proxy's own interval is as long: `Overlaps.FloorIsKeptExactly`.
- A dwell clock is cleared by a landing the keeper learns of, so one served dwell can pay for two
  landings when the first went unseen: `KeeperRuns.LandingServedItsDwell`,
  `Overlaps.OneDwellTwoLandings`.
- The failed gate a record names is not the one met when the regime exit follows a failed gate with no
  sweep due, and when a sweep's own refusal reads like a gate's: `GateRecord.RecordShowsTheGate`,
  `GateRecord.HiddenGateExample`, `GateRecord.PosingSweepExample`. The refusal's text is the node's
  (`keeper/src/compound.ts:64-65`); nothing in the repository itself words one like a gate.
- A reconnect is meant to replay what was missed, but one vault whose cursor is at the start leaves no
  resume point (`ui/server/collect/keeper.ts:425`) and the keeper then replays nothing for any vault
  (`keeper/src/status.ts:1072-1079`), and what is due from before the newest 500 ids of the stream is cut
  off: `CatchUp.ResumeMissesNothing`, `CatchUp.OneVaultAtTheStart`, `CatchUp.SixHundredBehind`.
- The stream parser replaces line ends chunk by chunk, so a CRLF cut in two becomes a blank line and
  ends the event early: `Sse.NormaliseEachExact`, `Sse.CutCrLfSplitsTheEvent`. The keeper itself writes
  no CR, and for such streams chunking is invisible.
- The indexer's chunk "only ever shrinks" (`ui/server/collect/events.ts:234`) unless it is configured
  below 250, when the first refusal raises it: `Backfill.ShrinkShrinksExactly`, `Backfill.SmallChunkGrows`.
- Within a boot the dashboard counts the running maxima of what is delivered: a record overtaken by a
  higher one is never counted, even when it is delivered later: `Ingest.OnlyMaximaAreCounted`,
  `Ingest.CountedExactly`, `Ingest.OvertakenIsLost`. This is reachable when a catch-up read fails and the status body's own record
  is taken instead (`ui/server/collect/keeper.ts:451-453`).

## Model

| member | source | states |
|---|---|---|
| Ticks.FloorIsGridFloor | keeper/src/ticks.ts:7-11 | the two-sided remainder correction is the Euclidean floor on both sides of zero |
| Ticks.TruncIsTowardZero | keeper/src/ticks.ts:3-5 | truncation is the floor above zero and the ceiling below it, on the grid |
| Ticks.CenteredBandExact | keeper/src/ticks.ts:18-23 | the exact band for every tick: rounded out to the grid on both sides |
| Ticks.CenteredBandShape | keeper/src/ticks.ts:18-40 | a centred band is on the grid, covers the half width on both sides, has one of two widths, and its midpoint is within half a spacing of the tick |
| Ticks.LimitRangeShape | keeper/src/ticks.ts:25-36 | a limit range never contains its tick and starts at most 2*spacing-1 ticks away |
| Ticks.LimitAnchor | keeper/src/ticks.ts:25-36 | the anchor line is off the tick on either side, so the extra step never applies |
| Ticks.ClampRespectsCap | keeper/src/ticks.ts:52-72 | what the clamp hands back moves the midpoint by at most the cap and never overshoots the target |
| Ticks.ClampRefusalExact | keeper/src/ticks.ts:52-72 | the clamp refuses exactly when the target is out of reach and the cap is at most two spacings |
| Ticks.WalkProgressExact | keeper/src/ticks.ts:47-72 | exactly when one walk brings the midpoint nearer, by where it sits in its cell |
| Decide.MidsDiffer | keeper/src/decide.ts:37-51 | the trigger's midpoint and the clamp's differ by one tick exactly on negative odd sums |
| Decide.PlacedBandIsQuietExactly | keeper/src/decide.ts:37-51 | a re-centered band asks for no re-center, at any tick, exactly when the threshold is at least one spacing or the spacing at most 2 |
| Decide.PlacedLimitIsQuietExactly | keeper/src/decide.ts:78-98 | a fresh limit asks for no refresh, at any tick and side, exactly when the refresh distance is at least 2*spacing-1 |
| Decide.OneSidedNeverFolds | keeper/src/decide.ts:165-193 | a one-sided limit never folds, so a fold clears its own trigger |
| Decide.TwoReadsSuffice | keeper/src/keeper.ts:398-462 | valuing the vault only when the share test passes never changes the fold decision |
| Decide.FoldsExactly | keeper/src/decide.ts:165-193 | with real legs a fold fires exactly when something is minted, each leg is its share of the limit, and the limit its share of the vault where that is worth anything |
| Decide.MixHasNoScale | keeper/src/decide.ts:165-193 | the composition test is the same at any scale of the two legs |
| Decide.SeedFiresExactly | keeper/src/decide.ts:100-124 | a seed fires exactly when shares are out and nothing is minted |
| Decide.DriftReasonTells | keeper/src/decide.ts:37-51 | the reason printed is the one that holds |
| Regime.ClockIsQuietStretch | keeper/src/regime.ts:96-132 | over every history the carried clock is the start of the current quiet stretch and exists only in the extreme regime |
| Regime.LeavesExtremeExactly | keeper/src/regime.ts:96-132 | the machine leaves extreme exactly when the quiet stretch is at least the re-entry time old |
| Regime.EntersAtOnce | keeper/src/regime.ts:48-132 | entering needs no wait, outside extreme the regime is the raw one, and `changed` and `since` tell exactly when it moved |
| Regime.SustainedQuietExits | keeper/src/regime.ts:96-132 | sustained quiet holds extreme through the wait and exits at the first reading past it |
| Regime.ExtremeExactly | keeper/src/regime.ts:48-76 | out of extreme, the answer is extreme exactly when the reserve is not read live, the feed is unhealthy, or the hour's move is known and at its threshold |
| Regime.ShortMoveIsNeverExtreme | keeper/src/regime.ts:48-76 | volume and the quarter hour's move never decide whether it is |
| Regime.ElevatedExactly | keeper/src/regime.ts:48-76 | short of extreme, elevated exactly on a known volume or a known quarter hour's move at its threshold |
| Regime.DisturbedIsWider | keeper/src/regime.ts:134-137 | the band is never narrower than in calm, and disturbed never narrower than the elevated setting |
| PriceTrail.TrailIsWindow | keeper/src/priceHistory.ts:22-29 | for every push sequence the samples are exactly the window of the accepted log |
| PriceTrail.MoveOverRefinesFullLog | keeper/src/priceHistory.ts:39-51 | a move is the full log's move, or absent exactly when the reference is absent or fell out of the window |
| PriceTrail.MoveIsDistance | keeper/src/priceHistory.ts:39-51 | a fall counts like a rise: a move times its reference is how far the price is from it |
| PriceTrail.ReferenceIsNewest | keeper/src/priceHistory.ts:39-51 | the reference is the newest sample that old |
| PriceTrail.OnlyStaleOrEmptyIsDropped | keeper/src/priceHistory.ts:22-29 | every positive price joins unless it is older than the newest |
| PriceTrail.PriceHistory.Push | keeper/src/priceHistory.ts:22-29 | pushing appends and prunes to the window, in place |
| PriceTrail.PriceHistory.MoveOver | keeper/src/priceHistory.ts:39-51 | the scanning loop finds the newest sample at or before the target |
| KeeperProcess.VaultKeeper.StepDwell | keeper/src/keeper.ts:47-63 | a dwell gate steps its own clock only, arms exactly when the trigger has held long enough, and otherwise prints how far it is |
| KeeperProcess.VaultKeeper.StepRegime | keeper/src/keeper.ts:74-155 | the regime step over the trail, the feed and the volume baseline, in place |
| KeeperProcess.VaultKeeper.Evaluate | keeper/src/keeper.ts:379-649 | the whole evaluation in place ends in the state, exit, lines and plan of the specification |
| KeeperProcess.VaultKeeper.Proceed | keeper/src/keeper.ts:491-507 | cooldown holds back an armed trigger, never a due sweep |
| KeeperProcess.VaultKeeper.Aim | keeper/src/keeper.ts:580-597 | anything but a re-center keeps the base; a placed re-center is within both caps; refused as out of reach exactly when the target is further than a cap of at most two spacings |
| Outcomes.SeenIsAsked | keeper/src/keeper.ts:396-455 | what asks, and in which order, stated on the vault's position alone |
| Outcomes.EveryEndIsTheTables | keeper/src/keeper.ts:379-649 | every evaluation ends, and runs its gates, as one flat table over its reads and its memory says |
| Outcomes.AimsExactly | keeper/src/keeper.ts:580-597 | where the band goes: kept, to its target, a step that way, or refused, by the two caps |
| Outcomes.EveryStateIsTheTables | keeper/src/keeper.ts:379-649 | and leaves every field of its memory as the table says |
| FeedTrail.TrailIsTheFeed | keeper/src/keeper.ts:74-155 | over every run the trail is the pruned history of the feed prices taken in |
| FeedTrail.NoPlanInACrash | keeper/src/keeper.ts:506-562 | over every run, at a plan the reserve was read live where that is checked, and the hour's move over the full history is below the extreme threshold, unless no price that old is in the window |
| KeeperRuns.EvaluationStepsClocks | keeper/src/keeper.ts:398-489 | every evaluation either throws before its triggers and touches no clock, or steps one clock, clears the others, and lands only an armed trigger |
| KeeperRuns.ClockIsStartOfStretch | keeper/src/keeper.ts:47-63 | over every run a dwell clock is the first sighting in the unbroken stretch of its trigger that ends the run |
| KeeperRuns.PlanServedItsDwell | keeper/src/keeper.ts:425-489 | over every run a plan, sent or not, ends an unbroken stretch of that same trigger at least the dwell long, with no restart or learned landing in it |
| KeeperRuns.LandingServedItsDwell | keeper/src/keeper.ts:425-489 | so does every mined transaction, learned of or not; and the stretch holds no landing at all if and only if no evaluation in it was mined unseen |
| KeeperRuns.CooldownCountsFromDecision | keeper/src/keeper.ts:642-649 | over every run the cooldown counts from the decision time of the last learned landing or the last restart's stamp, and a learned landing stops every dwell clock |
| KeeperRuns.EveryLandingIsOfAKind | keeper/src/keeper.ts:619-649 | whatever an evaluation has mined, seen or unseen, is of the trigger it saw |
| KeeperRuns.HeldLongEnoughIsArmed | keeper/src/keeper.ts:47-63 | a trigger held for the dwell is never sent home as arming |
| KeeperRuns.AtMostOneClock | keeper/src/keeper.ts:425-489 | after every run at most one of the three dwell clocks is running |
| PriceSafety.GateOpensExactly | keeper/src/keeper.ts:215-274 | the gate opens exactly on a trusted price: history long enough, near the average, feed fresh and near the placement tick |
| PriceSafety.EveryPlanIsWellFounded | keeper/src/keeper.ts:506-649 | every plan is made on a trusted price, out of the extreme regime, aimed from the average, for the trigger seen; every sweep is due, trusted and in a calm market |
| PriceSafety.SpotDoesNotMoveTheBand | keeper/src/keeper.ts:560-582 | two evaluations of a block that differ in spot alone and plan the same kind of action plan the same base band |
| PriceSafety.RecenterHeadsForTruth | keeper/src/keeper.ts:560-597 | a re-center aims within the deviation caps and half a spacing of spot and feed, and lands on the way there, never past it |
| PriceSafety.SweepsArePaced | keeper/src/keeper.ts:466-542 | between restarts sweeps are at least the interval apart |
| RebalanceProxy.ProxyMidIsBandMid | contracts/RebalanceProxy.sol:42-75 | the contract's midpoint is the keeper's |
| BoundedMotion.EvaluationFits | keeper/src/keeper.ts:491-597 | a plan comes only from an evaluation past the cooldown, inside the caps it read |
| BoundedMotion.PlanPassesProxy | contracts/RebalanceProxy.sol:42-142 | no submitted plan can fail the proxy's interval, translation or width checks while the caps stand |
| BoundedMotion.EveryRunObeysTheProxy | contracts/RebalanceProxy.sol:94-142 | over every interleaving of evaluations, pending transactions and restarts, each landing starts where the last left the band and is inside both caps and the proxy's interval after it, a full-range band excepted |
| BoundedMotion.EveryRunIsPacedByTheProxy | contracts/RebalanceProxy.sol:94-142 | with band widths short of the full range there is no exception |
| BoundedMotion.SeenLandingsAreSpaced | keeper/src/keeper.ts:491-507 | over every interleaving a landing is the longer of the two intervals after every landing mined before its evaluation read the chain |
| BoundedMotion.OnlyOverlapsBreakTheFloor | keeper/src/keeper.ts:491-507 | of two consecutive landings closer than that, the second was decided before the first was mined |
| BoundedMotion.CarefulRunsArePaced | keeper/src/keeper.ts:491-649 | over every run in which no evaluation sends while a transaction is on its way, landings are the longer interval apart and inside both caps |
| BoundedMotion.OverlapKeepsFloorExactly | keeper/src/submit.ts:4-17 | two transactions on their way keep the floor, whenever and in whichever order they are mined, if and only if for each order the proxy's own interval applies and is as long, or the caps refuse one of them |
| Overlaps.FloorIsKeptExactly | keeper/src/keeper.ts:491-507 | for any floor and any proxy interval: every run of true reads keeps the longer of the two if and only if the proxy's interval is at least the floor |
| Overlaps.OverlapBreaksTheFloor | keeper/src/submit.ts:4-17 | whatever the floor, a run of true reads with two landings no further apart than the proxy's interval |
| Overlaps.OneDwellTwoLandings | keeper/src/submit.ts:4-17 | a run of the direct mode in which one served dwell lands twice |
| BoundedMotion.BandMotionIsBounded | contracts/RebalanceProxy.sol:94-142 | over every interleaving, between landings at most T seconds apart the midpoint travels at most cap * (1 + floor(T / proxy interval)) |
| BoundedMotion.CarefulBandMotionIsBounded | keeper/src/keeper.ts:491-649 | and with the longer interval where no evaluation sends over an outstanding transaction |
| BandWalk.EveryVaultSettles | keeper/src/ticks.ts:47-72 | at a constant price any vault goes quiet within one landing plus one per gained stretch of its distance |
| BandWalk.QuietStays | keeper/src/keeper.ts:398-462 | a quiet vault is left alone for good |
| BandWalk.ShortStepNeverSettles | keeper/src/ticks.ts:47-72 | with a step under half a spacing a cell-centred band never moves and is asked to move for ever |
| BandWalk.SettlesExactly | keeper/src/ticks.ts:47-72 | every vault settles if and only if twice the step is at least a spacing |
| BandWalk.StuckAtSpacingSixty | keeper/src/ticks.ts:52-72 | spacing 60, cap 121: the band [-600, 660] walks to itself |
| Settling.RunIsLandAll | keeper/src/keeper.ts:398-649 | over every run of the keeper at a constant price, restarts and throws included, the vault is where the walk puts the mints that landed |
| Settling.QuietLandsNothing | keeper/src/keeper.ts:398-462 | no evaluation lands anything on a quiet vault |
| Settling.LandingsAreFew | keeper/src/ticks.ts:47-72 | no such run lands more often than once plus once per gained stretch of the distance |
| Settling.ReadyLands | keeper/src/keeper.ts:462-649 | a firing trigger lands once its dwell and the interval have passed, on a trusted price with every later step going through |
| Settling.EveryRunSettles | keeper/src/keeper.ts:398-649 | after that many chances, whatever else the run holds, no trigger fires any more |
| StatusLog.VaultSlot.FinalizeCycle | keeper/src/status.ts:704-798 | a finished cycle becomes the next record, and the standing changes exactly with its key |
| StatusLog.VaultSlot.OnLine | keeper/src/status.ts:555-692 | one line folded into the pending cycle, opening one when the summary is for another block |
| LogRoundTrip.RecordTellsTheEvaluation | keeper/src/record.ts:251-267 | for every path, the record's code is the exit taken, its gate is there exactly when the gates ran, and its trigger, plan and transaction are the real ones, except exactly when a wait was printed negative |
| LogRoundTrip.RecordShowsTheReads | keeper/src/status.ts:704-760 | the record shows the tick and band the evaluation read and whether a sweep was due, whatever came of it |
| GateRecord.RecordShowsTheGate | keeper/src/keeper.ts:544-558 | wherever the gates ran, thrown cycles included, the failure the record names is the one the evaluation met, except exactly when the regime exit hid it or a sweep's own text posed as one |
| GateRecord.MetMeans | keeper/src/keeper.ts:215-274 | what each named gate failure means on the evaluation's own reads |
| RecordDetails.RecordShowsTheDetails | keeper/src/status.ts:580-700 | on every path that got to the gates the record shows how the sweep went, a change of regime, the ticks of gates that passed and a walked band as they were; on any other none of them |
| GateRecord.HiddenGateExample | keeper/src/keeper.ts:544-558 | a reachable evaluation whose feed is unreadable and whose record names no failed gate |
| GateRecord.PosingSweepExample | keeper/src/compound.ts:62-67 | a reachable evaluation whose gates passed and whose record names a failed one |
| GateRecord.KeyTellsTheEvaluation | keeper/src/record.ts:205-222 | the standing's key is the evaluation's own exit and failure if and only if no wait was printed negative and no gate misread |
| LogRoundTrip.MisprintExample | keeper/src/status.ts:163-166 | a reachable keeper, with settings the schema takes, that is cooling down and is recorded as holding |
| LogRoundTrip.CycleBecomesOneRecord | keeper/src/status.ts:520-798 | one block's lines through the listener give exactly one record, made of those lines alone |
| LogRoundTrip.NothingHeardIsLost | keeper/src/status.ts:520-552 | a cycle heard of is finished by the start of another block or by its end; one not heard of leaves no record |
| LogRoundTrip.LinesFindTheirCycle | keeper/src/status.ts:555-580 | a summary or failure of another block opens its cycle; any other line is of the cycle in hand |
| LogRoundTrip.UnannouncedIsTheSame | keeper/src/status.ts:555-692 | without the announcing hook an evaluation's lines make the same record, stamped when its summary was heard |
| FeesOwed.MoveKeepsInside | keeper/src/feesOwed.ts:16-29 | a tick move across either bound changes nothing inside the position |
| FeesOwed.AccrueGrowsInside | keeper/src/feesOwed.ts:16-29 | growth adds to the inside exactly while the price is in range |
| FeesOwed.InsideSinceLastIsEarned | keeper/src/feesOwed.ts:16-29 | for any sequence of accruals, moves, pokes and collections, the wrapped difference is what was earned in range since the last poke, modulo 2^256 |
| FeesOwed.FeesAreLiquidityTimesEarned | keeper/src/feesOwed.ts:43-74 | fees owed are what is credited plus liquidity times that growth over 2^128 |
| FeesOwed.PokesLoseAtMostOneEach | keeper/src/feesOwed.ts:43-74 | splitting by pokes loses at most one unit per poke |
| FeesOwed.CollectPaysWhatIsOwed | keeper/src/feesOwed.ts:43-74 | a collection pays what is asked as far as it is owed, and nothing is lost |
| FeesOwed.PokeCredits | keeper/src/feesOwed.ts:43-74 | a poke credits what was reported and starts the count again |
| PoolOracle.TwapIsFloor | keeper/src/pool.ts:20-33 | the corrected truncation is the floor, for negative ticks too |
| PoolOracle.TwapIsMeanOfWindow | keeper/src/pool.ts:20-40 | the average is the floor of the mean tick of the window, whatever came before |
| PoolOracle.TwapWithinWindow | keeper/src/pool.ts:20-40 | it lies between the least and the greatest tick of the window |
| PoolOracle.DisplacementIsBounded | keeper/src/pool.ts:20-40 | histories within D ticks of each other for d of W seconds give averages at most ceil(D*d/W) apart |
| PoolOracle.EveryRingIsOrdered | keeper/src/pool.ts:42-51 | every reachable observation ring goes round in time order |
| PoolOracle.OldestIsOldest | keeper/src/pool.ts:42-51 | the slot after the newest, or slot 0 when that is unwritten, is the oldest observation |
| PoolOracle.WriteMovesOn | keeper/src/pool.ts:42-51 | a later write goes into the next slot of the round and leaves every other alone |
| PoolOracle.ClampedWindowIsAnswerable | keeper/src/keeper.ts:221-227 | a window clamped to that age never reaches past stored history |
| PoolOracle.ClampIsTight | keeper/src/pool.ts:42-51 | one second more than the age is refused |
| Mins.SplitIsMaximal | keeper/src/mins.ts:29-61 | the split conserves both tokens, uses one of them up, and no larger liquidity is affordable |
| Mins.BindingIsMaximal | keeper/src/mins.ts:29-61 | a liquidity is affordable exactly up to the binding one |
| Mins.SplitMovesOneWay | keeper/src/mins.ts:29-61 | as the price rises the base takes no more of token0 and no less of token1 |
| Mins.NothingIsLeftBehind | keeper/src/vault.ts:42-44 | the limit goes to the side with a surplus, so base and limit together take everything |
| Mins.DecisionPriceClears | keeper/src/mins.ts:82-106 | the decision price clears its own floors |
| Mins.MintFloorsGuard | keeper/src/mins.ts:82-106 | each mint floor is what is predicted less the tolerance, to within a unit; nothing is asked of the side not minted |
| Mins.BurnFloorsGuard | keeper/src/mins.ts:82-106 | each burn floor is what the position holds less the tolerance, to within a unit |
| Mins.WorseThanTheToleranceIsRefused | keeper/src/mins.ts:70-81 | an execution that takes a unit less of either token than the tolerance allows does not clear |
| Mins.FloorsAdmitAnInterval | keeper/src/mins.ts:82-106 | the prices that clear both base floors form an interval |
| Mins.SweepFloorsFit | keeper/src/mins.ts:141-156 | base and limit floors of a sweep never ask for more than is idle |
| Mins.SweepFloorsGuard | keeper/src/mins.ts:141-156 | each sweep floor is what is predicted less the tolerance, to within a unit |
| Mins.SweepOffersTheRest | keeper/src/mins.ts:141-156 | the limit is offered the whole units the base cannot take |
| PriceMath.Isqrt | mainnet/lib.js:230-240 | the Newton loop ends on the floor of the square root |
| PriceMath.SqrtPriceFromPrice | mainnet/lib.js:266-274 | the conversion is the root of the scaled price, for either sign of the decimal shift; a non-positive price is refused |
| PriceMath.SqrtPriceIsMonotone | mainnet/lib.js:266-274 | a higher price never gives a lower square-root price |
| PriceMath.RadicandBrackets | mainnet/lib.js:266-274 | both decimal branches bracket the same fraction |
| PriceMath.PriceRoundTrip | mainnet/lib.js:251-274 | price to square-root price and back never exceeds the original and falls short by an explicit bound |
| PriceMath.PriceRoundTripIsClose | mainnet/lib.js:251-274 | within two units in the last place when token1 has at least as many decimals and the root is not extreme |
| Sse.SseParser.Push | ui/server/collect/keeper.ts:66-77 | a chunk hands out the frames of every block it completes and keeps the rest |
| Sse.SseParser.Flush | ui/server/collect/keeper.ts:80-85 | the remainder is read as one block, and skipping white space loses no frame |
| Sse.ParseBlock | ui/server/collect/keeper.ts:88-104 | the line loop computes the block's fields |
| Sse.ReadAll | ui/server/collect/keeper.ts:785-793 | a whole connection gives the frames of its chunks and of the remainder |
| Sse.CutIsIncremental | ui/server/collect/keeper.ts:66-77 | cutting blocks needs only what was left over |
| Sse.NormaliseEachExact | ui/server/collect/keeper.ts:66-68 | replacing line ends per chunk is exact if and only if no boundary falls inside a CRLF |
| Sse.ChunkingIsInvisible | ui/server/collect/keeper.ts:63-86 | without such a boundary any chunking reads as the whole stream |
| Sse.CutCrLfSplitsTheEvent | ui/server/collect/keeper.ts:66-77 | with one, a two-line event becomes two events |
| Sse.WholeEventIsOne | ui/server/collect/keeper.ts:66-77 | the same text in one piece is one event |
| Sse.StreamRoundTrip | keeper/src/status.ts:1045-1080 | any events with one-line data, with preamble and pings between, in any chunks, are parsed back exactly, in order, with nothing left over |
| Sse.EventIdRoundTrip | ui/server/collect/keeper.ts:112-118 | an event id gives back its boot stamp and number |
| CatchUp.Ring.Push | keeper/src/status.ts:138-157 | a push keeps the newest entries up to the capacity |
| CatchUp.RingHoldsTheTail | keeper/src/status.ts:138-157 | whatever was pushed, a ring is the tail of it |
| CatchUp.RecordRingIs | keeper/src/status.ts:762-798 | a vault's ring holds its record numbers up to the head without a gap |
| CatchUp.Cycles | keeper/src/status.ts:900-925 | a page is the consecutive numbers above the cursor the ring still holds, up to the limit |
| CatchUp.ForeignCursorGetsTheNewest | keeper/src/status.ts:905-912 | a cursor past the head gets the newest page |
| CatchUp.Drain | ui/server/collect/keeper.ts:590-617 | while the head goes on, the client's loop delivers in order and once, up to the head its last page found or its page limit, missing only what the ring has let go; with a ring that does not overtake it, exactly the numbers from its floor to there |
| CatchUp.SmallRingIsDrained | ui/server/collect/keeper.ts:590-617 | it reaches the head exactly when what is due fits its pages |
| CatchUp.ResumeMissesNothing | ui/server/collect/keeper.ts:418-426 | a reconnect replays everything still due if and only if there is a resume point and all that is due lies above it, as everything does from a vault with a cursor, and among the newest 500 ids of the stream |
| CatchUp.ListedResumeMissesNothing | keeper/src/status.ts:1072-1079 | with every vault listed: if and only if nothing due is older than the newest 500 ids, and nothing is due or no cursor is at the start |
| CatchUp.CaughtUpMissesNothing | keeper/src/status.ts:1072-1079 | a dashboard that holds everything misses nothing, however long the stream and however many vaults share it |
| CatchUp.SixHundredBehind | keeper/src/status.ts:1076-1077 | one vault, 600 records, cursor 1: records 2 to 100 are due and are not sent |
| CatchUp.OneVaultAtTheStart | ui/server/collect/keeper.ts:418-426 | one vault at the start and the other's due records are not replayed |
| LogTail.NewLines | ui/server/collect/keeper.ts:122-138 | the nested loops give everything after the latest match, or everything when there is none |
| LogTail.NewsIsExactly | ui/server/collect/keeper.ts:122-138 | for overlapping windows of one stream no line is taken twice, and all new ones are taken exactly when nothing later reads like the old window's end |
| LogTail.LineTable.IngestLines | ui/server/collect/keeper.ts:628-639 | with no line twice a poll adds exactly what the stream gained |
| LogTail.IngestAll | ui/server/collect/keeper.ts:628-639 | over any run of overlapping polls the table is the stream from the first window on |
| Ingest.EveryRunIsSound | ui/server/collect/keeper.ts:507-733 | over any interleaving of sources, boots and restarts: no record counted twice, episodes encode the records, the thinned log misses no change, cursors point at held records of the followed boot |
| Ingest.AdvanceEncodes | ui/server/collect/keeper.ts:713-733 | one more record keeps the episodes the run-length encoding of the records |
| Ingest.EpisodesAddUp | ui/server/collect/keeper.ts:713-733 | exactly the last episode is open, neighbours touch and differ, and cycle counts sum to the records |
| Ingest.ThinnedLogTells | ui/server/collect/keeper.ts:657-687 | up to any record the latest stored row looks like it and is that record or less than 300 s older |
| Ingest.SameLookIsNoTransition | ui/server/collect/keeper.ts:240-256 | no transition means the same look, so looking alike is an equivalence |
| Ingest.LooksAlikeExactly | ui/server/collect/keeper.ts:196-256 | two records look alike exactly when they tell the same of outcome, trigger, each dwell, gate, regime, sweep, transaction and, up to its numbers, error |
| Ingest.NumberIsMarked | ui/server/collect/keeper.ts:237-238 | a whole number in an error text becomes one mark, whatever it is |
| Ingest.HexIsMarked | ui/server/collect/keeper.ts:237-238 | so does a hexadecimal one, prefix and all |
| Ingest.WordsStay | ui/server/collect/keeper.ts:237-238 | and words stay as they are |
| Ingest.RestartChangesNothing | ui/server/collect/keeper.ts:338-372 | the columns rebuilt from the tables are the ones lost |
| Ingest.RowsAreKept | ui/server/collect/keeper.ts:643-709 | no step removes a raw row, and a new one is the record that arrived |
| Ingest.OnlyStatusGoesBack | ui/server/collect/keeper.ts:507-651 | only a status body can return to an older boot, and an older boot's record changes nothing |
| Ingest.NewerBootIsAdopted | ui/server/collect/keeper.ts:643-650 | a record of a newer boot is adopted with its boot: every cursor is of it, and the record is entered unless its number is held |
| Ingest.NewerFrameIsAdopted | ui/server/collect/keeper.ts:744-749 | so is a newer boot heard in a frame's id |
| Ingest.FollowedBootIsTaken | ui/server/collect/keeper.ts:651-667 | a record of the followed boot above its cursor moves it and is entered unless held; one at or below it changes nothing |
| Ingest.StatusListsItsVaults | ui/server/collect/keeper.ts:461-503 | a status body gives every vault it lists a cursor of its boot and takes none away |
| Ingest.BootIsTheGreatestHeard | ui/server/collect/keeper.ts:507-525 | over every run the boot followed is the greatest heard of since the last status body |
| Ingest.DeliveryIsIdempotent | ui/server/collect/keeper.ts:643-709 | a record delivered twice leaves what it left once |
| Ingest.OnlyMaximaAreCounted | ui/server/collect/keeper.ts:653-667 | within a boot the table gains exactly the running maxima of what is delivered |
| Ingest.CountedExactly | ui/server/collect/keeper.ts:653-667 | a number is counted if and only if a delivery of it precedes every number as high |
| Ingest.OvertakenIsLost | ui/server/collect/keeper.ts:653-667 | number 2 delivered before number 1, and 1 is never counted however often either comes again |
| Ingest.KeeperCollector.HandleBoot | ui/server/collect/keeper.ts:507-525 | another boot resets every cursor and nothing else |
| Ingest.KeeperCollector.IngestRecord | ui/server/collect/keeper.ts:643-709 | one record in place: older boots refused, newer ones adopted, duplicates dropped, first sightings entered; the answer tells which, and what the raw and the thinned tables gained |
| Ingest.KeeperCollector.ApplyEpisode | ui/server/collect/keeper.ts:713-733 | the open episode grows, or closes and a new one opens |
| Ingest.KeeperCollector.IngestStatus | ui/server/collect/keeper.ts:461-503 | a status body follows its boot and gives every listed vault a cursor |
| Ingest.KeeperCollector.LastEventId | ui/server/collect/keeper.ts:418-426 | the lowest cursor of the followed boot, or none when there is none or it is at the start |
| Pipeline.OpenEpisodeIsTheStanding | keeper/src/status.ts:788-791 | record by record, the open episode has the key, start and first record of the keeper's standing |
| Pipeline.DashboardShowsTheStanding | ui/server/collect/keeper.ts:643-733 | a boot's records taken in order are all held, and the open episode is the standing the keeper reports |
| Pipeline.HeardIsEmitted | keeper/src/status.ts:520-798 | over any run of evaluated blocks the listener's slot is one finished cycle per block |
| Pipeline.DashboardShowsTheKeeper | ui/server/collect/keeper.ts:643-733 | over any run of evaluated blocks the open episode is the keeper's standing, and its key is the last evaluation's exit and failure if and only if that one was not misreported |
| Pipeline.EpisodeIsTheStretch | keeper/src/status.ts:788-791 | with nothing misreported, the episode began at the first evaluation of the unbroken stretch that ended like the last |
| Backfill.EveryRunCovers | ui/server/collect/events.ts:283-377 | over any ticks, refusals, failures, deaths and restarts, a vault's table holds every decodable log of its covered range once, and nothing else |
| Backfill.WalkIsSound | ui/server/collect/events.ts:283-318 | one tick keeps that, moves only its vault's cursor, and never back |
| Backfill.CursorsOnlyAdvance | ui/server/collect/events.ts:247-250 | no event takes a cursor back or away |
| Backfill.CoverageBeginsAtStart | ui/server/collect/events.ts:284-291 | with a start block, the covered range begins there |
| Backfill.AnyRunCanFinish | ui/server/collect/events.ts:283-318 | after any run, one tick with a willing provider leaves every decodable log of the vault, from where its range begins to the head, in the table |
| Backfill.RoundSpansAtMostAChunk | ui/server/collect/events.ts:293-317 | a written round reads on from the last one, over no more than a chunk, not past the head, and clears the wait |
| Backfill.RoundsThatDoNotWrite | ui/server/collect/events.ts:296-313 | only a refusal shrinks, six in a row end the tick, and whatever else goes wrong ends it with the cursor where it was |
| Backfill.ShrinkHalves | ui/server/collect/events.ts:320-323 | a refusal halves the chunk down to the floor and doubles the wait up to the ceiling |
| Backfill.WillingProviderFinishes | ui/server/collect/events.ts:293-317 | a provider that refuses nothing brings the cursor to the head |
| Backfill.ShrinkShrinksExactly | ui/server/collect/events.ts:320-323 | a refusal does not enlarge the chunk if and only if it was at least 250 |
| Backfill.ChunkIsBounded | ui/server/collect/events.ts:320-323 | over every run the chunk stays at most the larger of its setting and 250, and the backoff in its range |
| Backfill.EventsIndexer.IndexOne | ui/server/collect/events.ts:283-318 | the loop ends whatever the clock and the provider do, in the state of the specification |
| Backfill.EventsIndexer.Ingest | ui/server/collect/events.ts:353-377 | rows are inserted once per key |
| Alerts.EveryRunTellsTruth | monitor/src/status.ts:128-169 | over every run each key's notices are legal and tell exactly what is firing, since when and last told when; onsets less recoveries is the number firing |
| Alerts.LegalIsWellFormed | monitor/src/status.ts:123-169 | a legal trace is (onset (escalation or repeat)* recovery)*, with repeats at least the re-alert time after the notice before |
| Alerts.UnknownIsNotClear | monitor/src/status.ts:161-168 | after a cycle a key fires if and only if it was found, or was firing and was not checked |
| Alerts.OnlyCheckedRecovers | monitor/src/status.ts:161-168 | an alarm not found again is gone with one recovery if what it is about was checked, and otherwise goes on in silence: a vault's by the vaults checked, gas by the gas read, the fleet's by the cycle |
| Alerts.UncheckedNeverRecovers | monitor/src/status.ts:161-168 | over any run of cycles that do not check a vault its alarms go on and no recovery is sent for them |
| Alerts.NoLongSilence | monitor/src/status.ts:140-159 | after every cycle no alarm it found has kept silent for the re-alert time |
| Alerts.FindingIsTold | monitor/src/status.ts:140-159 | a found alarm keeps its onset and takes the finding's detail; a new one and a changed severity are told at once |
| Alerts.KeysTellApart | monitor/src/status.ts:107 | two findings share an alarm exactly when they share vault and key |
| Alerts.RpcAlarmIsTheStreak | monitor/src/status.ts:83-105 | the watchdog's own alarm fires exactly while that many cycles in a row have failed |
| Alerts.FailuresAreTheStreak | monitor/src/status.ts:83-94 | over every run the counter is at least n exactly when the last n cycles all failed |
| Alerts.Monitor.Reconcile | monitor/src/status.ts:128-169 | the two loops compute one reconciliation, in insertion order |
| Alerts.Monitor.NoteFinding | monitor/src/status.ts:140-159 | onset, escalation, repeat or silent update of one finding |

## Left out

- RPC reads, transaction building, submission retries and gas pricing: inputs to a step, and land or fail.
- IEEE rounding in price, split and decision arithmetic: reals; a square-root price at a tick is any positive real.
- String rendering and regular expressions of log lines: lines are kinds with their integer parameters, in the parser's match order; a dwell or regime value copied into a record from live state is not modelled.
- Update in place of the pending cycle: `StatusLog` keeps it as a value inside the slot, so aliasing of that object is not captured.
- `tokensOwed` as uint128 and block timestamps as uint32: both are unbounded here, so their wraps are not modelled.
- FinalizeCycle: the dwell, regime and timing fields that the record copies from live state are not modelled.
- IngestRecord: the `regimes` table and the live events sent to browsers are not modelled.
- EveryRunObeysTheProxy: fixed caps and no exempted vault; a full-range band is exempt in the contract and so here. Direct mode has no on-chain limits to pace it.
- BandMotionIsBounded: the same setting, with band widths short of the full range.
- FloorIsKeptExactly: one family of settings, with any floor and any proxy interval; that a proxy interval as long suffices holds for every setting (`EveryRunIsPacedByTheProxy`).
- EveryRunSettles: constant price, and a transaction is mined before the next read.
- SweepsArePaced: a restart forgets the last sweep, so the first after it may come at once.
- EveryVaultSettles: spot and average are equal and constant, and the width cap can take the vault's first band.
- SettlesExactly: the same setting; the width cap is at least one spacing, which every walked band needs.
- PriceRoundTripIsClose: the general bound is `PriceRoundTrip`; the two-unit form needs token1 to have at least as many decimals.
- EventIdRoundTrip: the number is read as a decimal numeral; other spellings a JavaScript number accepts are not.
- EveryRunIsSound: hourly retention, which deletes raw rows after its window, is not a step, and rows of different vaults are kept apart, so their relative order is not captured.
- EveryRunCovers: the provider answers a range with the chain's logs in it and the chain does not reorganise; decoding, transaction rows and receipts are left out.
- EveryRunTellsTruth: message text, titles and the webhook are left out; a notice is its key, kind, time and severity.
- Drain: against a head that stands still `StillHeadIsDrained` gives where it gets to; no other source moves the vault's cursor during one loop, and the keeper does not restart.
- DashboardShowsTheKeeper: one process and one boot; records reach the dashboard in order.
- IngestAll: polls overlap and no line repeats; time stamps are part of the line here.
- Config reads, `firstDepositShares`, tick-delta helpers and the decoded-call classification: simple functions with nothing spanning steps.
- HTTP servers, the Svelte dashboard, SQL text, redaction and config parsing: plumbing.
- Deploy, preflight, governance and handover scripts, and the simulation scripts.
