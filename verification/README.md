# TAOP reputation: simulator, alert outbox and log indexer

A Dafny model of three parts of the TAOP repository, with proofs about all of
their inputs and all of their runs.

* **The reputation simulator** (`packages/benchmark/src`): the mutable mechanism
  (attest, rate, challenge, resolve, slash, score) in its four TAOP versions,
  the mutual-rating detectors with their k-core peeling, and the three attack
  scenarios that drive the mechanism. Every operation exists as a value-level
  step (`Mechanism.Apply`) and as a method of the class `Mechanism.Simulator`
  proved against it. Each scenario driver is proved equal to a closed form.
* **The alert outbox** (`packages/backend/src/webhooks.ts` and the alerts table
  of `index_db.ts`): an ordered at-least-once dispatcher with a stored cursor,
  a backoff and a retention job. `Outbox` is the interleaved machine, with any
  number of polls in flight; `Webhooks` is the poll as the loop it is, proved to
  be a run of that machine.
* **The log indexer** (`indexer.ts` and the rest of `index_db.ts`): a chunked,
  confirmation-delayed, idempotent fold of contract logs into counters. The
  reference it must agree with is one fold over the ordered logs, and direct
  counts over what is live on the chain. A pass is started by a timer whether or
  not the one before it has ended. `IndexTrail` and the modules on it are about
  passes that run one after the other; `Overlap` is the interleaved machine, with
  any number of passes in flight, and its runs without overlap are proved to be
  schedules of `IndexTrail`.

The random generator of the benchmark is replaced by arbitrary streams: of
dispute outcomes in the sybil scenario, of rated agents in the collusion
scenario. A subscriber's answer, a node's answer and the clock are parameters.
Wei, scores and times are unbounded integers; ratios are `real`.

## Files

| file | content |
|---|---|
| `Parties.dfy`, `Arithmetic.dfy` | account ids, walking a set; quotients and products |
| `Decay.dfy` | the inactivity decay curve, both copies of it |
| `TrustGraph.dfy`, `KCore.dfy` | the rating graph and the detectors |
| `Mechanism.dfy` | the simulator: values, operations, class |
| `Bookkeeping.dfy`, `WeiConservation.dfy` | invariants over runs of the simulator |
| `SimulatorHistory.dfy` | completions, receipts, records and scores told from the operations alone |
| `Spending.dfy` | totals of what blocks of accounts spend and lock |
| `SybilRound.dfy`, `SybilScenario.dfy` | sybil farming |
| `SlowBurnScenario.dfy` | the slow burn |
| `RingDetection.dfy`, `HonestCrowd.dfy`, `CollusionScenario.dfy` | what the detectors see of a ring, and of honest agents; the collusive ring |
| `SimulatorCounterexamples.dfy` | runs of the simulator on which its books or its money go wrong |
| `Alerts.dfy`, `Outbox.dfy`, `Webhooks.dfy` | the alert table, the outbox machine, the dispatcher |
| `IndexDb.dfy`, `IndexMirror.dfy` | the index tables; their agreement with direct counts |
| `LogHistory.dfy` | capabilities, receipts, identities and alerts told from the logs alone |
| `ChainLogs.dfy`, `IndexTrail.dfy` | the chain as the node serves it; a pass as a function, wherever it dies |
| `IndexState.dfy`, `Indexer.dfy` | what an index on such a trail stores; the polling indexer as the loops it is, proved to follow it |
| `IndexBounds.dfy` | how far a pass and a schedule come, by heads and confirmations |
| `IndexHistory.dfy`, `AlertHistory.dfy` | schedules of passes: false rebuilds, logs passed over; what becomes of the alerts |
| `Reorg.dfy`, `Rebuilds.dfy` | replay over the tables that survive a reset; schedules with rebuilds |
| `IndexerCounterexamples.dfy` | chains and passes on which the indexer goes wrong |
| `Overlap.dfy`, `OverlapMarks.dfy` | passes in flight together: the machine, and what its markers stand for |
| `OverlapHistory.dfy`, `OverlapFolds.dfy`, `OverlapRebuilds.dfy` | wipes included: logs passed over; when the tables are one fold since the last wipe; when a rebuild is right |
| `OverlapWipes.dfy`, `OverlapBounds.dfy` | cursor, hash and alerts of overlapping passes; how far they come |
| `OverlapSerial.dfy` | runs without overlap are schedules of passes |
| `OverlapCounterexamples.dfy`, `OverlapPassedOver.dfy` | interleavings on which the indexer goes wrong with nothing dying |
| `Discovery.dfy` | the ranked, paged listing served from the index |

## Findings

Where the code does less than its documentation or its comments say, the model
follows the code. Each point has a lemma with the exact condition, and one with
an input, reached from an empty world or an empty index, on which it fails.

* Indexing passes can overlap (`indexer.ts:529-530`), and a log is checked, applied
  and marked with waits in between (`indexer.ts:208-234`). Over all interleavings
  each log is applied at most once since the last wipe if and only if no pass
  applies a log that another has applied since it was checked, or that had been
  applied when no marker was found for it (`Overlap.OnceThroughoutIff`); the latter
  takes another pass between applying and marking, a pruned marker, or a death
  (`Overlap.UnseenWhy`). For a log whose marker is not lost, and while no mark is
  stray (of a log that a wipe has taken back), that is the case exactly when, at the
  moment of applying, the log carries a marker or another pass stands between applying
  and marking it (`OverlapFolds.LateIsVisible`). The logs applied since the last wipe are in order,
  each once, if and only if no step is late, or ahead of a log not yet replayed
  (`OverlapFolds.OneFoldThroughoutIff`); without such steps and stray marks the tables
  are one fold since the last wipe (`OverlapFolds.InOrderIsOneFold`). Inputs:
  `OverlapCounterexamples.ReceiptAppliedTwice`,
  `OverlapCounterexamples.SlowPassAppliesAgain`.
* Two passes that cross leave the hash of one beside the cursor of the other, and a
  later pass wipes the index of a chain that never forked, with no death. Over all
  interleavings that happens if and only if a pass compares the hash stored for one
  block with that of another (`OverlapWipes.NeverWipedIff`), which it does if and only
  if it came in while the two were of different blocks and its node can give the cursor
  block (`OverlapWipes.MisreadIff`, `OverlapWipes.AlignedStepIff`). A pass caught by a
  wipe between applying a log and marking it marks it all the same, and the replay
  passes it by (`OverlapMarks.SoundThroughoutIff`, `OverlapMarks.StrayWhy`). Inputs:
  `OverlapCounterexamples.LateHashWipes`, `OverlapCounterexamples.WipedLogIsLost`.
  Alerts stay one per event through all of it
  (`OverlapWipes.AlertsUniqueInEveryRun`).
* A wipe takes no other pass back, so one that set out before it still writes its
  cursor after it, past logs that the wipe has cleared and nothing has replayed. A
  cursor of this replay is never ahead of the logs applied since the wipe, if no mark
  is stray (`OverlapHistory.NoLogPassedOver`); a cursor write leaves unapplied logs
  behind it if and only if its pass is from before the wipe and not all of them have
  been replayed (`OverlapHistory.StaleWriteIff`). Once nothing is in flight no later
  pass comes back below the stored cursor (`OverlapHistory.NeverReturns`), so a log up
  to it is lost if and only if it has not been applied since the last wipe
  (`OverlapHistory.LostIff`). With no wipe no log is passed over
  (`OverlapHistory.UnwipedPassesNothingOver`). Input, with no late step, no stray mark,
  no fork and no death: `OverlapPassedOver.LogIsPassedOver`.
* A pass stores the cursor first and, after asking the node, the hash
  (`indexer.ts:461-467`), so a single process that dies between the two leaves an
  earlier block's hash beside the new cursor. After any schedule over a chain that
  never forked, whatever deaths, silent nodes and wipes came before, the next pass
  wipes the index if and only if a hash is stored, the last hash write was for
  another block than the cursor, and the node can give the cursor block
  (`IndexHistory.WipesIff`). Scores, receipts and identities come out as one fold
  all the same (`Rebuilds.ScheduleKeepsRebuilt`), if no logs are passed over. The
  pair counts add up over all replays, so they are one fold if and only if no replay
  that a wipe cut off had a live confirmation (`Rebuilds.SchedulePairsIff`), and an
  agent's credit signal if and only if every counterparty some replay had confirmed
  is confirmed by the last (`Rebuilds.ScheduleCreditIff`). Input:
  `IndexerCounterexamples.FalseRebuildDoublesPairs`.
* A rebuild that dies, or whose range query fails, before it has stored a cursor
  leaves the old cursor over empty tables. If the next pass cannot get the cursor
  block it sees no mismatch, goes on from there, and the logs before it are never
  indexed again. The next pass makes a dead rebuild good if and only if the rebuild
  had stored a cursor, or the mismatch is still seen, or no log was left to lose
  (`IndexHistory.RecoversIff`, and by the rebuild's settings and life
  `IndexHistory.RecoversIffByBudget`; over schedules
  `IndexHistory.WholeThroughoutIff`).
  Input: `IndexerCounterexamples.RebuildCanBeAbandoned`.
* `docs/OPERATIONS.md:81` says alerts from orphaned blocks are removed. The reset
  deletes alerts from the cursor block on, so an orphaned alert is left if and only
  if an abandoned log strictly between the fork and the cursor raised one for an
  event that is not on the canonical chain (`AlertHistory.ForkOrphansIff`, and with
  alert retention on `AlertHistory.ForkOrphansPrunedIff`). Input:
  `IndexerCounterexamples.OrphanAlertCanLinger`.
* The rebuild after a reorg does not clear the counterparty counts and the
  distinct counts. Replayed confirmations are counted on top of surviving ones:
  the pair counts come out right if and only if none survived
  (`Reorg.PairsRebuiltIffNoneSurvived`), and an agent's credit signal if and only
  if each surviving counterparty still has a live receipt
  (`Reorg.CreditRebuiltIff`). Input: `IndexerCounterexamples.CreditCanStayInflated`.
* Completion rows survive too, and `INSERT OR IGNORE` keeps them. If a completion
  id changes agent across the fork, an upheld ruling is charged to the wrong
  agent. The rebuild of scores, receipts and identities is right after every
  canonical log if and only if that does not happen
  (`Reorg.RebuiltThroughoutIff`). Input:
  `IndexerCounterexamples.DisputeCanBeMisattributed`.
* Capability rows survive as well, and registering again keeps their flags
  (`index_db.ts:256-283`). A capability that only the abandoned fork slashed stays off
  the listing, and one that only it certified stays on. A replayed row is what a fresh
  index has if and only if the old chain left none, or the canonical one withdraws its
  bond, or it registers the capability and sets each flag after that which the old row
  or the replay has set (`LogHistory.CapabilityRebuiltIff`). Input:
  `IndexerCounterexamples.SlashCanOutliveFork`.
* `resolve` has no guard against a second ruling. The receipt bookkeeping is
  right after every step of a run if and only if no dispute is upheld twice
  (`Bookkeeping.BookedThroughoutIff`). Input:
  `SimulatorCounterexamples.SecondRulingCountsAgain`.
* A slash that reaches past an account's own stake takes bond money of its open
  challenges. The slash itself keeps every account's balance
  (`WeiConservation.SlashStep`); the later settlement, clamped at zero, then does
  not find the bond. A settlement keeps the balance if and only if the ruling is
  the first on its challenge and the challenger has a bond's worth locked, and a
  run keeps it after every step if and only if all its rulings are such
  (`WeiConservation.SettleIff`, `WeiConservation.ConservedThroughoutIff`). In v0.5
  `resolve` slashes the agent of a completion even when nobody challenged it.
  Input: `SimulatorCounterexamples.SlashTakesBond`.
* The indexer's copy of the decay curve differs from the simulator's for a
  negative activity time past the grace period, and nowhere else
  (`Decay.IndexerAgreesWithSimulator`). No block time and no clock of the scenarios
  is negative, so no run shows it; as functions they differ at
  `SimulatorCounterexamples.NegativeTimeDiffers`.
* Overlapping polls can move the delivery cursor back
  (`Outbox.CursorCanMoveBack`). No alert is skipped by it
  (`Outbox.CursorNeverSkips`).

## Model

| member | source | states |
|---|---|---|
| `Decay.LinearDecayScore` | packages/benchmark/src/mechanisms.ts:110-133 | the score lies between 0 and the net signal, for every grace and horizon, and no horizon makes it divide by zero |
| `Decay.DecayBpsAntitone` | packages/benchmark/src/mechanisms.ts:120-129 | a longer idle time never leaves more basis points |
| `Decay.ScoreNonIncreasingInNow` | packages/benchmark/src/mechanisms.ts:110-133 | waiting never raises a score |
| `Decay.ScoreMonotoneInSignal` | packages/benchmark/src/mechanisms.ts:110-133 | more credit and fewer disputes never lower a score |
| `Decay.ScoreNearExactLine` | packages/benchmark/src/mechanisms.ts:122-130 | inside the decay window the two floors cost less than net/10000 + 1 points against the exact line net * remaining / horizon, and never add any |
| `Decay.ScoreThroughoutLife` | packages/benchmark/src/mechanisms.ts:110-133 | the whole curve: the net signal without an activity time and within the grace period, zero from the horizon on, and in between the net times the remaining share in basis points, both divisions rounded down |
| `Decay.IndexerAgreesWithSimulator` | packages/backend/src/indexer.ts:126-135 | the indexer's separately written curve gives the simulator's score if and only if the activity time is non-negative, the net is zero or the grace has not passed |
| `Decay.IndexedNonIncreasingInNow` | packages/backend/src/indexer.ts:126-135 | the indexer's score never rises with time, whatever activity time is stored |
| `TrustGraph.BuildGraph` | packages/benchmark/src/scenarios/collusion.ts:69-96 | the graph holds exactly the given edges and nodes: rated sets, undirected neighbours, mutual-rating counts; and its neighbour relation is symmetric |
| `TrustGraph.CountMutual` | packages/benchmark/src/scenarios/collusion.ts:88-91 | counts the agents rated by a node that rated it back |
| `TrustGraph.ReciprocalPartners` | packages/benchmark/src/scenarios/collusion.ts:86-93 | one exact mutual count for every node |
| `TrustGraph.DetectByReciprocity` | packages/benchmark/src/scenarios/collusion.ts:99-108 | flags exactly the nodes with outgoing ratings whose returned share reaches the threshold |
| `TrustGraph.DetectByMutualDegree` | packages/benchmark/src/scenarios/collusion.ts:111-117 | flags exactly the nodes with enough mutual partners |
| `KCore.CoreIsGreatest` | packages/benchmark/src/scenarios/collusion.ts:119-124 | every graph has a k-core: the union of all sets whose members each have k neighbours inside is itself such a set, and the largest |
| `KCore.CoreUnique` | packages/benchmark/src/scenarios/collusion.ts:119-124 | the largest self-supporting set is unique |
| `KCore.CoresNest` | packages/benchmark/src/scenarios/collusion.ts:135-163 | a higher k gives a subset of the core of a lower one |
| `KCore.NoNeighboursNoCore` | packages/benchmark/src/scenarios/collusion.ts:127-135 | a threshold above every degree leaves an empty core, so stopping at the maximum degree loses nothing |
| `KCore.RemovingWeakNodeIsSafe` | packages/benchmark/src/scenarios/collusion.ts:147-148 | removing a node with fewer than k standing neighbours removes no member of any self-supporting set |
| `KCore.DegreesAfterRemoval` | packages/benchmark/src/scenarios/collusion.ts:150-154 | lowering the neighbours of a removed node keeps the degree map equal to the number of standing neighbours |
| `KCore.LowerNeighbours` | packages/benchmark/src/scenarios/collusion.ts:150-154 | the in-place update lowers exactly the standing neighbours, each by one |
| `KCore.Sweep` | packages/benchmark/src/scenarios/collusion.ts:144-156 | one pass keeps exact degrees and every self-supporting set, strictly grows the removed set when it reports a change, and otherwise leaves only nodes of degree k or more |
| `KCore.Peel` | packages/benchmark/src/scenarios/collusion.ts:142-157 | the survivors of the fixpoint loop are the k-core, in whatever order the nodes are visited |
| `KCore.SurvivorsAreCore` | packages/benchmark/src/scenarios/collusion.ts:159-162 | exact degrees of k or more on all survivors make the survivors the core |
| `KCore.CoreNumbers` | packages/benchmark/src/scenarios/collusion.ts:132-163 | the last k recorded for a node is its core number: it lies in the k-core for exactly the k up to it |
| `KCore.DetectByKCore` | packages/benchmark/src/scenarios/collusion.ts:125-170 | the flagged set is the core of the threshold, for every threshold, above the maximum degree included |
| `Mechanism.Simulator.constructor` | packages/benchmark/src/mechanisms.ts:149-151 | a new state is the empty world |
| `Mechanism.Simulator.EnsureAgent` | packages/benchmark/src/mechanisms.ts:153-160 | first touch creates an empty record and changes nothing else |
| `Mechanism.Simulator.Attest` | packages/benchmark/src/mechanisms.ts:162-207 | records a completion under the next id, counts it and charges its gas, as the value-level step says |
| `Mechanism.Simulator.FindOpen` | packages/benchmark/src/mechanisms.ts:213-221 | finds the newest completion of the agent with neither receipt nor challenge nor dispute, or none |
| `Mechanism.Simulator.FindById` | packages/benchmark/src/mechanisms.ts:234-234 | finds the first completion with the id, or none |
| `Mechanism.Simulator.Rate` | packages/benchmark/src/mechanisms.ts:209-231 | charges the receipt and credits it to the newest open completion, or to nothing when receipts are required and none is open |
| `Mechanism.Simulator.Challenge` | packages/benchmark/src/mechanisms.ts:233-242 | opens a challenge once, locking the bond |
| `Mechanism.Simulator.Resolve` | packages/benchmark/src/mechanisms.ts:388-400 | the v0.5 slash before the shared resolution, and the shared resolution alone in the other versions |
| `Mechanism.Simulator.ResolveBase` | packages/benchmark/src/mechanisms.ts:244-267 | marks the dispute, takes the receipt back and settles the bond; does nothing without a challenger |
| `Mechanism.Simulator.Uphold` | packages/benchmark/src/mechanisms.ts:248-254 | one dispute more, one confirmation less, with the counterparty dropped at its last |
| `Mechanism.Simulator.ReleaseBond` | packages/benchmark/src/mechanisms.ts:255-266 | returns or forfeits the bond |
| `Mechanism.Simulator.SlashCapability` | packages/benchmark/src/mechanisms.ts:269-275 | moves at most what is locked to slashed and spent |
| `Mechanism.Simulator.LockCapital` | packages/benchmark/src/mechanisms.ts:379-382 | locks stake, in v0.5 only |
| `Mechanism.Simulator.ConfirmedCount` | packages/benchmark/src/mechanisms.ts:96-100 | the loop computes the sum of the confirmation counts |
| `Mechanism.Simulator.ScoreOf` | packages/benchmark/src/mechanisms.ts:292-373 | the decayed net signal of the version, capped by stake in v0.5; an account looked up for the first time gets its empty record and nothing else changes |
| `SimulatorHistory.CompletionsTold` | packages/benchmark/src/mechanisms.ts:162-267 | after every run there is one completion for each attestation, in order; it names who submitted it and when, is challenged if and only if a challenge reached it, by whoever came first, and is disputed if and only if a ruling upheld a challenge on it |
| `SimulatorHistory.ReceiptStepIff` | packages/benchmark/src/mechanisms.ts:209-231 | in every run, an operation gives a completion a receipt if and only if it is a rating of its agent and the completion is the newest of that agent with no receipt, no challenge and no upheld ruling so far; the receipt is the rater's |
| `SimulatorHistory.NoReceiptAfterChallenge` | packages/benchmark/src/mechanisms.ts:213-221 | over whole runs: a completion keeps the receipt it has, and never gets one once it has been challenged |
| `SimulatorHistory.RecordsTold` | packages/benchmark/src/mechanisms.ts:162-254 | after every run and in every version, an account's completions are its attestations, its activity the time of the last, and its disputes the rulings upheld on its completions |
| `SimulatorHistory.RatingsTold` | packages/benchmark/src/mechanisms.ts:222-229 | where no receipts are required every rating is recorded, completion or not, and no ruling takes one back |
| `SimulatorHistory.CreditTold` | packages/benchmark/src/mechanisms.ts:96-104 | while the books are right, confirmations are the receipts on undisputed completions, and raters are the counterparties that gave them |
| `SimulatorHistory.ScoreTold` | packages/benchmark/src/mechanisms.ts:292-373 | after every run with single rulings a score is: attestations, or receipts, or distinct counterparties on undisputed completions, less upheld rulings, decayed since the last attestation, and in v0.5 at most the stake over 0.01 ether |
| `SimulatorHistory.PricesInWei` | packages/benchmark/src/economics.ts:12-44 | the gas, fee and stake constants in wei |
| `Bookkeeping.SecondDisputeBreaks` | packages/benchmark/src/mechanisms.ts:248-254 | upholding an upheld dispute leaves the record wrong |
| `Bookkeeping.BookStep` | packages/benchmark/src/mechanisms.ts:202-275 | one operation keeps the books exactly when it does not uphold a dispute twice |
| `Bookkeeping.BookRun` | packages/benchmark/src/mechanisms.ts:162-275 | in every reachable receipt-based state the confirmation count per counterparty, the rater set and the dispute count equal direct counts over the completions |
| `Bookkeeping.BookedThroughoutIff` | packages/benchmark/src/mechanisms.ts:244-246 | the books are right after every step of a run if and only if no dispute is upheld twice in it |
| `SimulatorCounterexamples.SecondRulingCountsAgain` | packages/benchmark/src/mechanisms.ts:244-246 | attest, challenge and two upheld rulings leave two disputes on one completion |
| `Bookkeeping.SignalsOrdered` | packages/benchmark/src/mechanisms.ts:96-104 | distinct counterparties are at most the confirmed completions, which with the disputes are at most the completions |
| `Bookkeeping.StepKeepsBacked` | packages/benchmark/src/mechanisms.ts:177-267 | every operation, second rulings included, keeps confirmations backed by receipted completions |
| `Bookkeeping.ScoresOrderedInEveryRun` | packages/benchmark/src/mechanisms.ts:309-373 | after every run and at every time: v0.5 score <= v0.3 <= v0.2 <= self-attested score, and a v0.5 score of n has n stakes locked |
| `WeiConservation.NoOpenChallengeIsCovered` | packages/benchmark/src/mechanisms.ts:269-275 | an account without an open challenge of its own can always be slashed within its stake |
| `WeiConservation.SlashStep` | packages/benchmark/src/mechanisms.ts:269-275 | a slash of any size keeps every account's balance: what it takes beyond the stake is booked as stake lost, and the bonds still owed are missed only when they are settled |
| `WeiConservation.SettleIff` | packages/benchmark/src/mechanisms.ts:255-266 | settling a bond keeps all balances if and only if the ruling is the first on its challenge and the challenger has a bond's worth locked, so the clamp at zero takes nothing (with a bond of zero, always) |
| `WeiConservation.ConservedStepIff` | packages/benchmark/src/mechanisms.ts:202-275 | one operation of any kind keeps, for every account, locked = stake left + open bonds, slashed = stake lost + forfeited bonds, spent = fees + bonds not returned + stake lost, if and only if it is no ruling that finds its bond gone or already ruled on |
| `WeiConservation.WeiConservedInEveryRun` | packages/benchmark/src/mechanisms.ts:202-275 | a run whose rulings all find their bond loses and invents no wei of any account |
| `WeiConservation.ConservedThroughoutIff` | packages/benchmark/src/mechanisms.ts:202-275 | the balances hold after every step of a run if and only if every ruling in it is the first on its challenge and finds the bond locked |
| `WeiConservation.WithinStakeConserves` | packages/benchmark/src/mechanisms.ts:202-275 | runs with single rulings and slashes within the stake are such runs, and no account loses more stake than it put in |
| `SimulatorCounterexamples.SlashTakesBond` | packages/benchmark/src/mechanisms.ts:388-398 | an account that posted one bond and no stake is slashed two bonds by a run of five operations, and the run is not conserved |
| `SybilRound.RoundFarms` | packages/benchmark/src/scenarios/sybil.ts:99-118 | one attestation with its receipt and ruling farms one completion, costs one dispute if upheld, and leaves everybody else's standing alone |
| `SybilRound.RoundCosts` | packages/benchmark/src/scenarios/sybil.ts:99-118 | whatever the watchers do, a round takes an attestation from the identity and a receipt from its neighbour, and no other capital of anyone but the challenger |
| `SybilRound.FarmedScores` | packages/benchmark/src/scenarios/sybil.ts:125-128 | what an identity scores after k completions and d upheld disputes, in each version |
| `SybilScenario.NeighbourIsNew` | packages/benchmark/src/scenarios/sybil.ts:101-106 | with fewer completions than identities the round-robin never repeats a counterparty and never picks the identity itself |
| `SybilScenario.FarmingNeverCheaper` | packages/benchmark/src/scenarios/sybil.ts:125-148 | the farmed total never exceeds one point per completion, and reaches it if and only if no dispute was upheld |
| `SybilScenario.EfficiencyIsSurvival` | packages/benchmark/src/scenarios/sybil.ts:141-148 | with equal prices on both arms the efficiency ratio is the share of farmed points that survive |
| `SybilScenario.RunSybilFarming` | packages/benchmark/src/scenarios/sybil.ts:56-192 | for every stream of outcomes: the total score is the sum over identities of max(0, K - c d) with c = 1, 2, 2, 5 for self-attest, v0.2, v0.3, v0.5; receipts, challenges and disputes are counted exactly; committed capital does not depend on the outcomes; the price per point is that capital over the points, at least one; and the efficiency ratio is total / (S K), zero where nothing was farmed |
| `SlowBurnScenario.ReceiptBurns` | packages/benchmark/src/scenarios/slowBurn.ts:86-93 | one completion and its receipt keep the attacker's record and the accomplices' spending at their closed form |
| `SlowBurnScenario.TargetMet` | packages/benchmark/src/scenarios/slowBurn.ts:94-99 | a day's score meets the target if and only if there are enough accomplices for the version and the day is at least ceil(target / per day); the stake of v0.5 never stands in the way |
| `SlowBurnScenario.AccumulateUntilTarget` | packages/benchmark/src/scenarios/slowBurn.ts:83-100 | the day loop stops on the closed-form day, or runs out of horizon |
| `SlowBurnScenario.NothingSurvives` | packages/benchmark/src/scenarios/slowBurn.ts:112-118 | after the slash and the retroactive disputes the score is 0 in every version and at every time |
| `SlowBurnScenario.RunSlowBurnHarvest` | packages/benchmark/src/scenarios/slowBurn.ts:54-155 | days to threshold, score at harvest, spending and slashable wei equal their closed forms; the score at the end is 0 when the target was met, and what the days have built up when it was not |
| `CollusionScenario.CountRaters` | packages/benchmark/src/scenarios/collusion.ts:248-256 | the first n ratings a member receives come from ceil(n / R) distinct members |
| `CollusionScenario.RateMember` | packages/benchmark/src/scenarios/collusion.ts:251-253 | a rating uses up an open completion while there is one, and is paid for in vain afterwards |
| `CollusionScenario.RingEarns` | packages/benchmark/src/scenarios/collusion.ts:269-269 | every ring member scores ceil((M-1)/R) under v0.3 and v0.5, M-1 under v0.2 and nothing when self-attested |
| `RingDetection.RingIsReciprocal` | packages/benchmark/src/scenarios/collusion.ts:248-256 | a ring member has rated exactly its peers, been rated by exactly its peers, and the mutual ratings are the same set |
| `RingDetection.ReciprocityFindsRing` | packages/benchmark/src/scenarios/collusion.ts:296-296 | for every honest rating pattern reciprocity flags the whole ring if its threshold is at most 1, and nobody of the ring otherwise |
| `RingDetection.MutualDegreeFindsRing` | packages/benchmark/src/scenarios/collusion.ts:297-300 | mutual degree flags the whole ring if it asks for at most M-1 partners, and nobody of it otherwise |
| `RingDetection.CoreFindsRing` | packages/benchmark/src/scenarios/collusion.ts:301-301 | peeling flags the whole ring if the core threshold is at most M-1, and nobody of it otherwise, whatever the honest crowd does |
| `RingDetection.Evaluate` | packages/benchmark/src/scenarios/collusion.ts:172-190 | hits, false alarms, misses, precision and recall are the set counts they are named for, and F1 is twice the hits over everything flagged and everything planted |
| `RingDetection.Detect` | packages/benchmark/src/scenarios/collusion.ts:295-312 | the figures are the exact evaluation of the three flagged sets and of their union, and on a ring rated all round each detector's recall is 1 or 0 as its threshold says, the union's being 1 if any of them is |
| `HonestCrowd.ReciprocityFlags` | packages/benchmark/src/scenarios/collusion.ts:99-108 | whatever the ring does, reciprocity wrongly flags exactly the honest agents that rate and whose returned share reaches the threshold |
| `HonestCrowd.DegreeFlags` | packages/benchmark/src/scenarios/collusion.ts:111-117 | mutual degree wrongly flags exactly the honest agents with as many returned ratings as it asks for |
| `HonestCrowd.CoreFlags` | packages/benchmark/src/scenarios/collusion.ts:125-170 | peeling wrongly flags exactly the honest agents in some group each of which has rated or been rated by k of the group |
| `HonestCrowd.JudgedCrowd` | packages/benchmark/src/scenarios/collusion.ts:294-312 | so false alarms, flagged counts and precision of the three detectors and their union are those of these sets |
| `CollusionScenario.RingNeverCheaper` | packages/benchmark/src/scenarios/collusion.ts:270-280 | the ring never pays less per point than honest agents, pays the same only with one rating per pair, and with more at least one receipt per point extra |
| `CollusionScenario.ResistanceZeroIffSingleRating` | packages/benchmark/src/scenarios/collusion.ts:357-363 | the resistance score is 0 if and only if the ring rates each pair once |
| `CollusionScenario.RunCollusiveRing` | packages/benchmark/src/scenarios/collusion.ts:206-347 | for every honest rating pattern: score, cost, prices per point and efficiency equal their closed forms; the detection is the exact evaluation of the graph of all ring pairs and all honest ratings; each detector finds all of a rated ring of two or more or none of it, as thresholds and size decide, mutual degree exactly the rings of four or more; and false alarms, flagged counts and precision follow from the honest choices alone |
| `Alerts.AlertTable.RecordAlert` | packages/backend/src/index_db.ts:63-85 | inserts under a fresh id unless the event is already stored |
| `Alerts.AlertTable.ListAlertsAfter` | packages/backend/src/index_db.ts:123-149 | returns the oldest stored alerts above the id, at most the clamped limit |
| `Alerts.AlertTable.CountAlertsAfter` | packages/backend/src/index_db.ts:152-157 | counts the stored alerts above the id |
| `Alerts.AlertTable.PruneAlerts` | packages/backend/src/index_db.ts:227-239 | what the offset query and delete leave is the newest `keep` rows and every row above the bound, nothing else |
| `Alerts.PruneKeeps` | packages/backend/src/index_db.ts:227-239 | a row is deleted if and only if retention is on, at least `keep` rows are newer, and it is not above the bound |
| `Alerts.AlertTable.DeleteFromBlock` | packages/backend/src/index_db.ts:195-195 | removes exactly the alerts of blocks from the given one on |
| `Alerts.RecordValid` | packages/backend/src/index_db.ts:63-85 | recording keeps ids increasing and one alert per transaction, kind and block |
| `Alerts.RecordAdds` | packages/backend/src/index_db.ts:63-85 | afterwards there is an alert of that kind, block and transaction: the row that was there, or one more under the next id, all others as they were |
| `Alerts.BatchIsOldest` | packages/backend/src/index_db.ts:126-127 | a page holds every stored alert above the cursor up to its own last id |
| `Alerts.ShortBatchIsAll` | packages/backend/src/index_db.ts:126-127 | a page that is not full misses nothing |
| `Alerts.PageSize` | packages/backend/src/index_db.ts:123-127 | a page is as long as was asked for, between 1 and 500 rows, as far as there are any |
| `Alerts.CountAfterBatch` | packages/backend/src/index_db.ts:152-157 | moving the cursor to the end of a page lowers the backlog by exactly the page |
| `Outbox.StepSafe` | packages/backend/src/webhooks.ts:278-320 | every insert, start, acknowledgement, cursor write, refusal, prune, reorg and crash, in any order, keeps every id at or below the cursor settled |
| `Outbox.CommitSafe` | packages/backend/src/webhooks.ts:298-304 | writing the cursor, forwards or back, lands on an id below which everything is settled |
| `Outbox.RetainSafe` | packages/backend/src/indexer.ts:480-486 | retention bounded by the cursor deletes only settled alerts |
| `Outbox.CursorNeverSkips` | packages/backend/src/webhooks.ts:295-333 | in every run, with any number of overlapping polls, every alert at or below the stored cursor was acknowledged or retracted by a reorg |
| `Outbox.NothingLost` | packages/backend/src/webhooks.ts:210-221 | in every run every recorded alert is still stored, was acknowledged, or was retracted |
| `Outbox.EventsUniqueInEveryRun` | packages/backend/src/index_db.ts:64-73 | in every run no two stored alerts have the same transaction, kind and block |
| `Outbox.CursorCanMoveBack` | packages/backend/src/webhooks.ts:325-333 | two overlapping polls take the cursor from 2 back to 1 |
| `Outbox.DeliveredInOrder` | packages/backend/src/webhooks.ts:295-317 | with one poll at a time acknowledged ids never decrease, and repeat only where the cursor write between was lost |
| `Outbox.FailedAlertIsNext` | packages/backend/src/webhooks.ts:306-316 | after a refusal and whatever inserts, retention, reorgs and crashes follow, the same alert is the first one the next poll sends, unless a reorg retracted it |
| `Webhooks.Dispatcher.PollWebhooksOnce` | packages/backend/src/webhooks.ts:278-320 | one poll is a run of the outbox machine: it delivers the page up to the first refusal, and sets cursor, streak and totals accordingly; after a refusal the next attempt is due when the poll interval, doubled by each refusal in a row, or five minutes, is over |
| `Webhooks.Dispatcher.DeliverBatch` | packages/backend/src/webhooks.ts:295-317 | the delivery loop, alert by alert |
| `Webhooks.Dispatcher.PollAccepting` | packages/backend/src/webhooks.ts:285-317 | with a willing subscriber a poll lowers the backlog by the page it may take, 1 to 500 as configured, or by all of it |
| `Webhooks.Dispatcher.DrainBacklog` | packages/backend/src/webhooks.ts:285-317 | ceil(backlog / page) such polls empty it |
| `Webhooks.BackoffMonotone` | packages/backend/src/webhooks.ts:312-313 | waits never shrink as failures pile up and never pass 300 seconds |
| `Webhooks.BackoffDoubles` | packages/backend/src/webhooks.ts:61-61 | the wait begins at the poll interval, doubles with every failure and stops at 300000 milliseconds |
| `Webhooks.FailureStreak` | packages/backend/src/webhooks.ts:306-316 | n refused polls in a row, each after the wait before it, leave the streak n higher and cursor and backlog untouched |
| `Webhooks.NthWait` | packages/backend/src/webhooks.ts:312-313 | after n refusals in a row the next poll is due min(pollMs * 2^n, 300000) milliseconds after the last |
| `Webhooks.RefusalSilences` | packages/backend/src/webhooks.ts:285-288 | after a refusal, whatever inserts, starts, prunes, reorgs and crashes come, until the subscriber is heard again a poll sets out if and only if it comes after that wait and an alert is stored above the cursor |
| `Webhooks.DeliveryEndsSilence` | packages/backend/src/webhooks.ts:296-304 | a cursor write clears the failures: the next poll sets out at any time, if an alert is stored above the cursor |
| `IndexDb.Database.BumpAgent` | packages/backend/src/index_db.ts:299-320 | adds the deltas, clamps the confirmed counter at zero and keeps the latest activity |
| `IndexDb.Database.BumpCounterparty` | packages/backend/src/index_db.ts:326-355 | moves the pair count by one, drops it at zero, and keeps the distinct counter in step |
| `IndexDb.Database.RecordIndexedCompletion` | packages/backend/src/index_db.ts:357-380 | keeps the first row of a completion |
| `IndexDb.Database.ApplyEvent` | packages/backend/src/indexer.ts:238-408 | each event changes the tables as the value-level step says, statement by statement; what that makes of them is in `IndexMirror` and `LogHistory` |
| `IndexDb.Database.MarkIndexed` | packages/backend/src/index_db.ts:213-217 | marks a log once |
| `IndexDb.Database.PruneIndexedLogs` | packages/backend/src/index_db.ts:246-252 | drops exactly the markers below the cutoff, and none while the window is off or longer than the chain |
| `IndexDb.Database.ResetIndexerDerived` | packages/backend/src/index_db.ts:194-202 | clears scores, receipts, identities and markers, and nothing else of the index |
| `IndexMirror.LogMirrors` | packages/backend/src/indexer.ts:303-408 | one lawful log keeps every counter equal to its direct count, and no clamp changes anything |
| `IndexMirror.IndexMirrorsChain` | packages/backend/src/indexer.ts:325-371 | after every lawful sequence of logs receipt rows are the live receipts and all counters are exact |
| `IndexMirror.CountersAgree` | packages/backend/src/index_db.ts:326-355 | confirmed = live receipts = sum of the pair counts; distinct = counterparties with a live receipt; stored pair counts are the live receipts of the pair |
| `IndexMirror.ClampsNeverFire` | packages/backend/src/index_db.ts:309-337 | folding with and without the two clamps gives the same tables |
| `IndexMirror.DisputesAreRulings` | packages/backend/src/indexer.ts:359-362 | the dispute counter is the number of upheld rulings on completions the agent owned |
| `IndexMirror.ActivityIsLatest` | packages/backend/src/index_db.ts:309-311 | the stored activity time is that of the agent's latest attestation or receipt; rulings and revocations never look like activity |
| `LogHistory.OfferedIff` | packages/backend/src/indexer.ts:243-276 | after any logs a capability is of a type, certified and not slashed if and only if, since its last withdrawal, its latest registration was under that type, it was certified after a registration and never slashed after one; its creator is the latest registrant |
| `LogHistory.ReceiptsTold` | packages/backend/src/indexer.ts:325-371 | after any lawful logs a completion has a receipt row if and only if its latest receipt was neither revoked nor ruled away since, and the row is that receipt with its time |
| `LogHistory.IdentityIsLatest` | packages/backend/src/index_db.ts:418-422 | an agent's identity is the one it registered last, and nobody else has one |
| `LogHistory.AlertsTold` | packages/backend/src/indexer.ts:238-408 | from nothing and without retention, there is one alert of a kind for a transaction in a block if and only if one of its logs raises that kind, event by event |
| `LogHistory.NeverNegative` | packages/backend/src/index_db.ts:299-354 | whatever logs come, lawful or not, and through resets, no confirmed and no distinct counter falls below zero |
| `LogHistory.CapabilityRebuiltIff` | packages/backend/src/index_db.ts:188-202 | after a reset and a replay a capability row is what a fresh index has if and only if none had been left, or its bond is withdrawn in the replay, or it is registered there and each flag of the old row or the replay is set after that |
| `ChainLogs.SortLogs` | packages/backend/src/indexer.ts:197-197 | the answer in (block, index) order, with the same logs |
| `ChainLogs.SortIsUnique` | packages/backend/src/indexer.ts:196-197 | however a node orders its answer, sorting gives the chain's own order |
| `Indexer.SyncedPruned` | packages/backend/src/index_db.ts:241-252 | marker pruning behind the cursor forgets no marker a re-scan needs |
| `Indexer.LogIndexer.IndexRange` | packages/backend/src/indexer.ts:192-236 | of a pass with no other in flight: applies each unmarked log of the range once and in order, its alert included; a process that dies leaves a longer prefix, which a re-scan continues |
| `Indexer.LogIndexer.StoreProgress` | packages/backend/src/indexer.ts:461-467 | the cursor is written before the hash, and a death between them leaves the new cursor beside the old hash |
| `Indexer.LogIndexer.ScanChunks` | packages/backend/src/indexer.ts:456-470 | the loop comes exactly as far as the scan function says, wherever the process dies: between logs, before the cursor write, or between the cursor write and the hash write |
| `Indexer.LogIndexer.Retain` | packages/backend/src/indexer.ts:476-489 | trims the alerts retention allows and the markers behind the cursor, and leaves the index resumable |
| `Indexer.LogIndexer.PollOnce` | packages/backend/src/indexer.ts:428-490 | one pass with no other in flight, with or without a mismatch and with any point of death, takes cursor, hash, tables and alerts where the pass function says; and a pass that does not die leaves the cursor at min(head - confirmations, start + chunk size * chunks) if that is beyond its start, one that dies never beyond |
| `Indexer.LogIndexer.RunSchedule` | packages/backend/src/indexer.ts:428-490 | any passes one after the other over one chain, each with its own head, chunk size, limit, depth, retention and point of death, leave the object where the run of pass functions says |
| `IndexHistory.RunBounds` | packages/backend/src/indexer.ts:429-431 | over every schedule, rebuilds included and from any position, the cursor never passes the largest safe head and no log beyond it is applied |
| `IndexBounds.PassEndsAt` | packages/backend/src/indexer.ts:431-470 | a pass stores no cursor beyond head - confirmations, nor beyond the chunks it may take; one that does not die ends exactly at the lesser of the two if it starts below it, and otherwise leaves the cursor alone |
| `IndexBounds.RunWithinHeads` | packages/backend/src/indexer.ts:431-459 | in every schedule from nothing, whatever dies and is wiped, the cursor and every log that went into the tables lie from the start block on and at most head - confirmations of some pass |
| `IndexBounds.PassLeavesNothingOut` | packages/backend/src/indexer.ts:456-470 | a pass that does not die has every log of the blocks between its start and its end in the tables |
| `IndexHistory.WipesIff` | packages/backend/src/indexer.ts:434-467 | after any schedule over an unforked chain, whatever deaths, silent nodes and wipes it has seen, the next pass wipes the index if and only if a hash is stored, the last hash write was for another block than the cursor, and the node can give the cursor block |
| `IndexHistory.FalseRebuildIff` | packages/backend/src/indexer.ts:434-467 | one pass after a right hash: it sets up a wipe if and only if it dies between a cursor write and its hash write with an earlier block's hash left, and the next node can give the cursor block |
| `IndexHistory.UntornRun` | packages/backend/src/indexer.ts:434-470 | in a schedule of passes one after the other, none dying between cursor and hash write, an unforked chain is never wiped: the cursor only moves forward, nothing is passed over, and the tables stay one fold |
| `IndexHistory.UntornIsOneFold` | packages/backend/src/indexer.ts:434-470 | such a schedule from nothing: the tables are one fold, and of exactly the logs up to the cursor if no pass died or the cursor has caught up |
| `IndexHistory.RecoversIff` | packages/backend/src/indexer.ts:436-456 | a rebuild that died is made good by the next pass if and only if it had stored a cursor of its own, or the mismatch is still seen, or no log was left to lose |
| `IndexHistory.RecoversIffByBudget` | packages/backend/src/indexer.ts:436-461 | in terms of settings and life: a rebuild that did not outlive its first chunk's logs is made good if and only if the node shows the next pass the mismatch, or the replayed logs reached the old cursor |
| `IndexHistory.WholeThroughoutIff` | packages/backend/src/indexer.ts:436-456 | no log is missing since the last reset, after any pass of a schedule, if and only if no pass sees no mismatch while a rebuild has not come to the stored cursor |
| `AlertHistory.EveryEventKept` | packages/backend/src/indexer.ts:246-360 | after any schedule, deaths and rebuilds included, the event of every log applied since the last reset is in the alert table, or its alert had an id up to the delivered one when it was pruned |
| `AlertHistory.AlertsAreOneFold` | packages/backend/src/indexer.ts:246-360 | with retention off and no death between cursor and hash, the alert table is the fold of the same logs as the other tables |
| `AlertHistory.ForkOrphansIff` | packages/backend/src/index_db.ts:190-195 | after the pass that sees a fork, if it dies or retention is off, an orphaned alert is left if and only if an alert-raising abandoned log lies strictly between the fork and the cursor and its event is not on the canonical chain |
| `AlertHistory.ForkOrphansPrunedIff` | packages/backend/src/index_db.ts:190-195 | if it ends with retention on, an orphaned alert is left if and only if the row of such a log is among the newest kept or beyond what is delivered |
| `Indexer.IndexFromScratch` | packages/backend/src/indexer.ts:428-490 | a fresh index whose passes run one after the other follows the run of pass functions from nothing, so what is proved about schedules holds of its tables |
| `Reorg.RebuildRestores` | packages/backend/src/index_db.ts:187-202 | replaying canonical logs over the cleared tables gives the scores, receipts and identities of a fresh fold, if rulings land on completions that kept their agent |
| `Reorg.RebuiltThroughoutIff` | packages/backend/src/index_db.ts:187-202 | the rebuild is right after every canonical log if and only if no upheld ruling meets a surviving row naming another agent |
| `Rebuilds.ScheduleKeepsRebuilt` | packages/backend/src/indexer.ts:434-470 | on a chain that never forked, scores, receipts and identities stay one fold of the applied logs through torn passes and the rebuilds they cause, while no log is passed over |
| `Rebuilds.PairsAddUp` | packages/backend/src/index_db.ts:196-201 | every replay counts its confirmations again: over pieces that all begin at the start block the pair counts are the sum over all replays |
| `Rebuilds.NoLossesAllWhole` | packages/backend/src/indexer.ts:434-470 | while no pass of a schedule passes logs over, all its pieces begin at the start block |
| `Rebuilds.SchedulePairsIff` | packages/backend/src/index_db.ts:196-201 | after any schedule that passes no logs over, with any deaths and wipes, the pair counts are one fold of the applied logs if and only if no replay that a wipe cut off had a live confirmation |
| `Rebuilds.ScheduleCreditIff` | packages/backend/src/index_db.ts:196-201 | after any such schedule an agent's credit signal is its counterparties with a live receipt if and only if every counterparty some replay had confirmed is confirmed by the last one |
| `Rebuilds.RebuildThenPoll` | packages/backend/src/indexer.ts:434-490 | passes one after the other from a fork on, each with any point of death: scores, receipts and identities are a fresh fold of the canonical logs replayed unless logs were passed over, and of all of them up to the cursor when none died or the cursor has caught up |
| `OverlapRebuilds.RebuiltTogether` | packages/backend/src/indexer.ts:434-490 | passes in flight together over a chain that never forked, wiped any number of times: while nothing is late, ahead or stray, scores, receipts and identities are a fresh fold of the logs applied since the last wipe |
| `OverlapRebuilds.ForkRebuiltTogether` | packages/backend/src/indexer.ts:434-490 | the same after a fork, with passes in flight together from the wipe on, over any tables the abandoned chain left whose completion rows keep the agent of each ruling |
| `Reorg.PairsRebuiltIffNoneSurvived` | packages/backend/src/index_db.ts:196-201 | the rebuilt pair counts are right if and only if none survived the reset |
| `Reorg.CreditRebuiltIff` | packages/backend/src/index_db.ts:196-201 | an agent's rebuilt credit signal is right if and only if each surviving counterparty has a live canonical receipt |
| `IndexerCounterexamples.FalseRebuildDoublesPairs` | packages/backend/src/indexer.ts:461-467 | three passes by an honest node over one chain, the second cut short between cursor and hash, count one live receipt twice |
| `IndexerCounterexamples.RebuildCanBeAbandoned` | packages/backend/src/indexer.ts:436-456 | four passes by an honest node leave a cursor and a matching hash over empty scores and receipts |
| `IndexerCounterexamples.CreditCanStayInflated` | packages/backend/src/index_db.ts:196-201 | a counterparty confirmed only on the abandoned fork keeps counting |
| `IndexerCounterexamples.DisputeCanBeMisattributed` | packages/backend/src/index_db.ts:357-387 | a row that survives the abandoned fork charges a canonical ruling to the wrong agent, and not to the right one |
| `IndexerCounterexamples.SlashCanOutliveFork` | packages/backend/src/index_db.ts:256-291 | a slash on the abandoned fork only keeps a capability off the listing that the canonical chain offers |
| `IndexerCounterexamples.OrphanAlertCanLinger` | packages/backend/src/index_db.ts:190-195 | two passes, one on each side of a fork two blocks deep, leave the alert of an abandoned block |
| `Overlap.OnceThroughoutIff` | packages/backend/src/indexer.ts:208-234 | over all interleavings of any number of passes, with failures, deaths and wipes: every log is applied at most once since the last wipe, after every step, if and only if no pass applies a log that another has applied since it was checked or that had been applied when no marker was found |
| `Overlap.UnseenWhy` | packages/backend/src/indexer.ts:208-209 | a pass takes an applied log in hand only while another stands between applying and marking it, or when its marker was pruned or died unwritten |
| `OverlapHistory.NoLogPassedOver` | packages/backend/src/indexer.ts:456-470 | over all interleavings with any wipes, failures and deaths: if no mark is stray, all logs from the start block up to a stored cursor that was written by a pass of this replay (one that set out since the last wipe, or from such a cursor) have been applied since that wipe, and so has all that such a pass has behind it and all that carries a marker |
| `OverlapHistory.UnwipedPassesNothingOver` | packages/backend/src/indexer.ts:456-470 | in every interleaving with no wipe no mark is stray and all logs from the start block up to the stored cursor have been applied |
| `OverlapHistory.StaleWriteIff` | packages/backend/src/indexer.ts:456-461 | after any interleaving with no stray mark, a cursor write leaves a log behind it that has not been applied since the last wipe if and only if its pass is from before that wipe and not every log up to its block has been replayed |
| `OverlapHistory.NeverReturns` | packages/backend/src/indexer.ts:456-470 | once no pass is in flight, no pass ever comes back below the stored cursor until the next wipe: a log there is applied later if and only if it is applied now |
| `OverlapHistory.LostIff` | packages/backend/src/indexer.ts:456-470 | after any interleaving with nothing left in flight, a log up to the stored cursor is never applied before the next wipe, whatever passes come, if and only if it has not been applied since the last one; if no mark was stray, that cursor is from before the wipe |
| `OverlapFolds.OneFoldThroughoutIff` | packages/backend/src/indexer.ts:529-530 | over all interleavings with any wipes, failures and deaths: after every step the logs applied since the last wipe are those from the start block on, in order, each once, if and only if no step applies a log late, or ahead of the replay (with one before it not applied) |
| `OverlapFolds.AheadWhy` | packages/backend/src/indexer.ts:456-470 | only a pass from before the last wipe gets ahead of the replay, if no mark is stray |
| `OverlapFolds.InOrderIsOneFold` | packages/backend/src/indexer.ts:529-530 | then, if no mark is stray, the tables are one fold of the chain over what the last wipe left, of at least the logs up to a cursor of this replay, however the passes overlap |
| `OverlapFolds.UnwipedIsOneFold` | packages/backend/src/indexer.ts:529-530 | with no wipe and no late step the tables are one fold of the chain over empty tables, of at least the logs up to the stored cursor |
| `OverlapFolds.LateIsVisible` | packages/backend/src/indexer.ts:208-234 | over all interleavings with no stray mark: applying a log whose marker is not lost is late exactly when at that moment the log carries a marker or a pass stands between having applied it since the last wipe and marking it |
| `OverlapWipes.AlignedStepIff` | packages/backend/src/indexer.ts:461-467 | a hash write leaves hash and cursor of one block if and only if the node had no answer or no other pass has moved the cursor since; a cursor write if and only if the stored hash is missing or of that block; no other step changes it |
| `OverlapWipes.NeverWipedIff` | packages/backend/src/indexer.ts:434-467 | over all interleavings and deaths, with honest nodes: an unforked chain is never wiped if and only if no pass compares the hash stored for one block with that of another |
| `OverlapWipes.MisreadIff` | packages/backend/src/indexer.ts:434-449 | a pass makes such a comparison if and only if hash and cursor were not of one block when it came in and its node can give the cursor block, whatever other passes do meanwhile |
| `OverlapWipes.UnforkedIsOneFold` | packages/backend/src/indexer.ts:428-490 | on an unforked chain with no such comparison and no late step, overlapping passes wipe nothing and the tables are one fold |
| `OverlapMarks.SoundThroughoutIff` | packages/backend/src/indexer.ts:227-234 | over all interleavings, wipes included: only logs applied since the last wipe carry a marker, after every step, if and only if no pass marks a log that a wipe has taken back |
| `OverlapMarks.StrayWhy` | packages/backend/src/indexer.ts:227-234 | such a mark means that a wipe came between applying the log and marking it |
| `OverlapWipes.AlertsUniqueInEveryRun` | packages/backend/src/index_db.ts:63-85 | in every interleaving, wipes and double applications included, alert ids are in order and no two stored alerts have the same transaction, kind and block |
| `OverlapBounds.OverlapWithinHeads` | packages/backend/src/indexer.ts:431-459 | in every interleaving, with any wipes, failures and deaths, the stored cursor and every applied log lie from the start block on and at most head - confirmations of some pass that was started |
| `OverlapBounds.PassEndsWhereItMust` | packages/backend/src/indexer.ts:456-470 | whatever other passes do meanwhile, a pass that ends by itself has stored the cursor last at min(head - confirmations, start + chunk size * chunks) |
| `OverlapSerial.NoOverlapIsSchedule` | packages/backend/src/indexer.ts:428-490 | whenever no pass is in flight, a run in which passes do not overlap has stored exactly what a schedule stores whose passes are those that have ended, one for one and in that order, each with its point of death; one that dies before the node has answered has done nothing and is none of them |
| `OverlapCounterexamples.ReceiptAppliedTwice` | packages/backend/src/indexer.ts:208-234 | two passes of honest nodes check a receipt before either marks it: confirmed twice, counted twice, one receipt row |
| `OverlapCounterexamples.SlowPassAppliesAgain` | packages/backend/src/index_db.ts:246-252 | a pass slow to get its logs finds their markers pruned by a pass that has ended, and applies them again |
| `OverlapCounterexamples.LateHashWipes` | packages/backend/src/indexer.ts:461-467 | two passes cross, and a third wipes the index of a chain that never forked, nothing having died |
| `OverlapCounterexamples.WipedLogIsLost` | packages/backend/src/indexer.ts:227-234 | a pass caught by that wipe marks a log that is no longer applied |
| `OverlapPassedOver.LogIsPassedOver` | packages/backend/src/indexer.ts:456-470 | three passes of honest nodes over a chain that never forked cross: one wipes, and one from before the wipe writes its cursor last; the index is empty behind the right hash, the log is never applied again before another wipe, and no step was late and no mark stray |
| `Discovery.QueryIndexedCapabilities` | packages/backend/src/index_db.ts:458-475 | the certified, unslashed capabilities of a type, in id order; over the tables of any logs, exactly those the logs offer under that type |
| `Discovery.QueryIndexedDiscovery` | packages/backend/src/indexer.ts:560-596 | a page of the one listing that holds exactly the qualifying capabilities, best score first and ties by id, and the length of that listing |
| `Discovery.RankingIsUnique` | packages/backend/src/indexer.ts:592-592 | a query has only one such listing, so separate requests cut pages from the same one |
| `Discovery.PagesCover` | packages/backend/src/indexer.ts:594-594 | turning pages shows every entry once, in rank order, and leaves none out |
| `Discovery.ListedEntriesAreDirect` | packages/backend/src/indexer.ts:571-575 | every listed entry follows from the chain alone: live receipts, their distinct issuers or completions, upheld rulings, and the simulator's decay since the latest attestation or receipt |
| `Discovery.ListingFromLogs` | packages/backend/src/indexer.ts:567-596 | the whole listing told from lawful logs: a capability is on it if and only if the logs offer it and its latest registrant's score, worked out from the logs, is enough; entries name that registrant and that score, which fall, ties in id order |
| `Discovery.ListingsOnlyDecay` | packages/backend/src/indexer.ts:574-575 | without new logs time only takes entries off a listing and never raises a score |

## Left out

* SybilScenario.RunSybilFarming: assumes fewer completions per identity than identities where receipts count, as longer farms reuse counterparties and their score depends on which completions are disputed; and at most 10001 identities under v0.5, as later ones share ids with challengers.
* CollusionScenario.RunCollusiveRing: assumes 1 to 1000 ring members, as larger rings share ids with the honest agents; and a ring of nobody asks for the score of an undefined account.
* Indexer.LogIndexer.PollOnce: is about a pass with no other in flight, in which a process dies between logs, before a cursor write, or between a cursor write and its hash write; `Overlap` adds other passes and a death between applying and marking. A death between the separate writes of applying one log, of one reset, or of retention is not modelled, and within one pass the node gives each answer once.
* OverlapRebuilds.ForkRebuiltTogether: starts with the pass that has seen the fork alone in flight; one still in flight with logs or hashes of the abandoned chain is not modelled, as the passes of a run see one chain.
* A start block recomputed from the head when a process is restarted with neither setting given: every pass of a run has the same one.
* Reorg.RebuildRestores: says nothing of the counterparty, diversity and capability tables, which the reset does not clear; the lemmas beside it say what becomes of the first two, and `LogHistory.CapabilityRebuiltIff` of the third.
* The simulator stores agent records and completions by value in a map and a sequence; the source shares mutable objects. No alias is visible to its callers except through these tables.
* The naive-count, peer-feedback and other baseline mechanisms, and the reports built on them.
* The random generator's bit pattern and the redraw loop for honest ratings: any rated agent but oneself is allowed.
* Rounding in JavaScript's floating point, the one-decimal display of scores and the text of findings.
* The combined sybil resistance score and the slow-burn profit and coverage ratios, which are plain expressions of the proved totals.
* Signing, HTTP, timeouts, URL checks and timers of the dispatcher; webhooks switched off or reset in mid-run; failing database writes.
* Failed enrichment calls while indexing, which leave a log unmarked behind an advancing cursor.
* Alert payloads and creation times, capability bonds and metadata, identity text beyond the stored CID, lower-casing of addresses.
* A fractional `keep` in retention, which the source floors.
* The Solidity contracts, SDKs, routes and demos. What the contracts guarantee about log order and receipts enters as the predicate `IndexMirror.Lawful`.
