# A verified model of the block engine's bundle pipeline

The engine takes bundles from searchers, auctions block space among them, forwards the
winners to the validators that lead soon, follows them on chain and reports back. This
project models that path and the services around it in Dafny and proves what holds for
every input, every interleaving of the engine's tasks and every run.

How it is organised:

- `Common`, `StableSort`, `Bundles`, `Transactions`: shared vocabulary. `u64` is bounded,
  and saturating and wrapping addition are written out.
- `Scoring`, `AuctionSpec`, `AuctionTheorems`, `AuctionBound`, `Auction`: tips, the stable
  density ranking, the skip-greedy selection, what it guarantees, and the shared object.
- `HubSpec`, `Results`: routing of results to searchers.
- `TrackerSpec`, `Tracker`: one poll of the on-chain tracker.
- `Pipeline`, `PipelineInvariant`, `PipelineFrames`, `PipelineProof`, `PipelineTheorems`:
  searcher calls, auction tick, tracker poll, pruning and stream reads as one state
  machine whose steps are the engine's critical sections. `publish` takes two locks one
  after the other and is two steps. Each drain-loop iteration is a step. On top of it
  `PipelineVerdicts` (what the tracker reports), `PipelineSimulation` (which winners were
  simulated), `PipelineAcceptance` (which accepted bundles are forwarded), `PipelineExpiry`
  (which bundles hear nothing), `PipelineStreams` (what a reading searcher gets),
  `PipelineOrigins` (where stored entries come from) and `PipelineWitness` (concrete runs).
- `Leaders`: the leader cache. `Forwarding`, `ForwardingTheorems`, `Forwarder`: from the
  channel to the validators' streams. `EndToEnd`: joint runs of pipeline and lane.
- `AuthSpec`, `Auth`, `AuthRuns`: the login handshake and where tokens come from.
- `Interest`: accounts and programs of interest.

Objects that the engine updates in place are classes, and their methods are proved against
functions on values; the theorems are about those functions and about runs built from them.

Assumptions, all visible in the definitions: uuids, nonces and subscription ids are fresh;
the RPC node tells the truth when it answers about epochs and schedules (`Leaders` only);
signing is ideal, so a token verifies exactly when its claims were issued; the decoders,
Base58, Ed25519 and the simulator are arbitrary functions or arbitrary inputs.

The ranking number is an arbitrary function of tip and compute into the reals. The binary64
quotient of the source is one such function, because its operands are finite and its
divisor is at least one, so it is never NaN. Conservation, budget, order, independence and
refinement results therefore hold for it as they stand. The approximation bound holds with
the factors by which it differs from the exact quotient, and with factor one for the exact
quotient. Bid monotonicity needs the ranking number to be monotone.

Where the code and the engine's own documentation differ, the model follows the code, with
a concrete input and the exact condition:

- The engine's README promises the maximal total tip (its lines 95-97). The greedy choice is
  not optimal: `GreedyIsNotOptimal`. `ApproximationBound` says how far off it can be and
  `OptimalWhenNearlyFull` when it is not; an exact condition would amount to solving the
  knapsack problem.
- It reports all non-winners as auction losers (line 98). Expired bundles get no result at all:
  `ExpiredWitness`, with `RankedExactly` and `ExpiredHearsNothing` for the exact condition.
- It simulates bundles before they can win (lines 102-103). A bundle submitted during the
  simulation pass can win on its compute estimate: `LateBundleWins`, with `WinnersSimulated`
  for the exact condition.
- It has `Accepted` mean that the bundle won and was forwarded (line 130). The result is
  published at selection, before forwarding: `AcceptedNotForwarded`, with `AcceptedIffTaken`
  and `ForwardedExactly` for the exact condition.
- A full result stream loses the message and stays subscribed
  (src/results/src/lib.rs:165-166): `StreamLifecycle` holds for every stream, and
  `NothingIsMissed` says what a stream that is never full gets.

## Model

| member | source | states |
|---|---|---|
| `AuctionBound.ApproximationBound` | src/auction/src/lib.rs:216-238 | for every buffer, every budget and every ranking number within factors `lo`, `hi` of the exact density: `lo` times the tip of any feasible set of survivors is at most `hi` times the winners' exact tip plus the first rejected bundle's tip; proved by pricing compute at the first rejected bundle's density (weak duality), with free bundles handled apart |
| `AuctionBound.ExactApproximationBound` | src/auction/src/lib.rs:216-238 | with exact densities: no feasible set earns more than the winners plus the first rejected bundle, and no more than the winners when nothing was rejected |
| `AuctionBound.SlackBound` | src/auction/src/lib.rs:216-238 | the sharper form: beyond the winners, a feasible set gains at most the compute left unused at the first rejection, sold at that bundle's density |
| `AuctionBound.OptimalWhenNearlyFull` | src/auction/src/lib.rs:216-238 | if a ranked prefix is taken whole and the compute it leaves, sold at the density of the next bundle, is worth less than one lamport, the selection is optimal |
| `AuctionBound.OptimalWhenFull` | src/auction/src/lib.rs:216-238 | in particular when the prefix fills the budget exactly |
| `AuctionBound.GreedyIsNotOptimal` | README.md:95-97 | the documented "maximises total tip" is false: for every `c > 2` an auction of two simulated bundles where greedy earns 2 lamports and `c` would fit |
| `AuctionBound.CrossMultiplication` | src/auction/src/lib.rs:217-219 | exact densities compare as the cross products `tip_a * max(cu_b, 1)` and `tip_b * max(cu_a, 1)` do |
| `AuctionBound.RelativeErrorIsWithin` | src/auction/src/lib.rs:217-218 | a density with bounded relative error satisfies the factor condition of the bound |
| `AuctionTheorems.BidMonotonicity` | src/auction/src/lib.rs:216-234 | across two auctions that differ in one winner's bid: a higher tip or a lower charged compute keeps it a winner and does not worsen its rank, for every monotone ranking number and every budget |
| `AuctionTheorems.RankMonotonicity` | src/auction/src/lib.rs:216-234 | for an arbitrary ranking number: a bid that ranks no worse and is charged no more keeps a winner winning, because its new predecessors are a prefix of its old ones |
| `AuctionTheorems.WinsIsMembership` | src/auction/src/lib.rs:222-238 | the position-wise notion of winning used above is membership in the returned winner list, both directions |
| `AuctionTheorems.ExactDensityIsMonotone` | src/auction/src/lib.rs:217-218 | the exact density is monotone in tip and antitone in compute |
| `AuctionTheorems.LosersAreIrrelevant` | src/auction/src/lib.rs:211-238 | deleting any set of bundles that did not win leaves the winners and their order unchanged |
| `AuctionTheorems.WinnersWinAgain` | src/auction/src/lib.rs:216-238 | auctioning the winners alone returns exactly the winners, in order |
| `AuctionTheorems.Conservation` | src/auction/src/lib.rs:201-238 | as multisets, the buffer is winners plus losers plus expired plus failed |
| `AuctionTheorems.RankedExactly` | src/auction/src/lib.rs:208-213 | a bundle wins or loses if and only if it is buffered, younger than the time to live and not failed in simulation; all others get no auction result |
| `AuctionTheorems.OneResultEach` | src/auction/src/lib.rs:225-238 | one publication per ranked bundle: `Accepted` for the winners in order, a lost-auction rejection with its own tip for each loser, nothing else |
| `AuctionTheorems.ResultsInOrder` | src/auction/src/lib.rs:225-238 | the publications name the ranked bundles, one each and in ranked order |
| `AuctionSpec.SelectPartitions` | src/auction/src/lib.rs:225-238 | every ranked bundle ends on exactly one side |
| `AuctionSpec.SelectKeepsOrder` | src/auction/src/lib.rs:225-238 | winners and losers are each in ranked order |
| `AuctionSpec.SelectAccounts` | src/auction/src/lib.rs:222-230 | below the maximal budget the unchecked accumulator is the exact compute of the winners and within budget; at the maximal budget nothing is rejected; the tip total is the exact sum capped at `u64::MAX` |
| `AuctionSpec.BudgetRespected` | src/auction/src/lib.rs:228-229 | the winners' exact compute is within budget if and only if the budget is below `u64::MAX` or all survivors together fit in a `u64` |
| `AuctionTheorems.BudgetByFigures` | src/auction/src/lib.rs:48-52 | the budget law in the recorded figures, measured compute where simulated and the estimate where not: below the maximal budget the winners' figures sum to at most the budget, and at every budget each loser's own figure on top exceeds it |
| `Auction.PacketBudget` | src/auction/src/lib.rs:156-171 | without simulations: 200,000 times the winners' packets is within budget, and any loser's packets on top are not |
| `AuctionSpec.MaximalBudgetOverruns` | src/auction/src/lib.rs:228-229 | with the maximal budget two bundles overrun it and the accumulator wraps |
| `AuctionSpec.LosersDoNotFit` | src/auction/src/lib.rs:225-238 | no rejected bundle would fit beside the final winners |
| `AuctionSpec.FreeBundlesWin` | src/auction/src/lib.rs:225-234 | a bundle charged no compute always wins |
| `AuctionSpec.WithSimulationAt` | src/auction/src/lib.rs:139-147 | exactly the first buffered bundle with the uuid is changed, or none |
| `StableSort.SortFacts` | src/auction/src/lib.rs:216-220 | the sort is a permutation in descending order of the key |
| `StableSort.SortStable` | src/auction/src/lib.rs:216-220 | bundles of equal density keep their buffer order |
| `StableSort.SortUnique` | src/auction/src/lib.rs:216-220 | a descending arrangement that keeps the order of equals is the sort: the model of `sort_by` does not depend on the algorithm |
| `StableSort.SortAround` | src/auction/src/lib.rs:216-220 | where one element stands in the sorted list, and what stands before and behind it |
| `StableSort.SortFilter` | src/auction/src/lib.rs:216-220 | sorting commutes with deleting elements |
| `Auction.AuctionHouse.Submit` | src/auction/src/lib.rs:109-123 | appends the scored bundle with its arrival time and counts it |
| `Auction.AuctionHouse.PendingForSimulation` | src/auction/src/lib.rs:127-135 | exactly the unsimulated bundles, in buffer order |
| `Auction.AuctionHouse.SetSimulation` | src/auction/src/lib.rs:138-153 | records the outcome on the first match and publishes a failure even without one; keeps received = won + dropped + buffered |
| `Auction.AuctionHouse.Run` | src/auction/src/lib.rs:201-242 | winners, publications in order, counters and the emptied buffer are those of the reference auction; keeps received = won + dropped + buffered |
| `Auction.AuctionHouse.Drain` | src/auction/src/lib.rs:222-238 | the loop over the ranked bundles computes the reference selection and publishes its results one by one |
| `Scoring.TxTip` | src/auction/src/lib.rs:174-197 | the saturating loop equals the exact sum of qualifying transfers, capped |
| `Scoring.ScoreBundle` | src/auction/src/lib.rs:156-171 | the nested saturating loops equal the exact total capped once, and the estimate counts every packet |
| `Scoring.InstructionOrderIrrelevant` | src/auction/src/lib.rs:174-197 | the tip of a transaction does not depend on instruction order |
| `Scoring.PacketOrderIrrelevant` | src/auction/src/lib.rs:156-171 | the score, saturation included, does not depend on packet order |
| `Scoring.UndecodablePacket` | src/auction/src/lib.rs:163-170 | an undecodable packet adds no tip and still raises the compute estimate |
| `Scoring.PaidExactly` | src/auction/src/lib.rs:178-194 | a transfer pays its lamports if and only if its program is the system program and its second account is a tip account, both static keys |
| `Scoring.ScoreAdds` | src/auction/src/lib.rs:163-170 | the tip of a bundle is the saturating sum of the tips of its parts, and the estimate is 200,000 per packet |
| `Scoring.ScoreOne` | src/auction/src/lib.rs:163-197 | a bundle of one instruction scores what it pays |
| `HubSpec.RetainOffersOnce` | src/results/src/lib.rs:163-168 | exactly the closed streams are removed; each other stream keeps its place and is offered the message once |
| `HubSpec.DeliveryRouting` | src/results/src/lib.rs:158-172 | a delivery touches only its owner's streams; an owner leaves the table only when all its streams were closed |
| `HubSpec.TerminalIsFinal` | src/results/src/lib.rs:144-157 | after a terminal result a further publication for the uuid changes nothing |
| `HubSpec.PublishTells` | src/results/src/lib.rs:146-173 | a publication adds one message, with the bundle's own uuid and the result, to every open stream of the bundle's owner with fewer than 256 unread messages, in place, and changes no other owner's streams |
| `HubSpec.OwnersAfter` | src/results/src/lib.rs:76-154 | accepted and processed leave the owner on record, every other result takes it off |
| `HubSpec.NobodyToTell` | src/results/src/lib.rs:155-157 | without an owner a publication changes nothing |
| `HubSpec.PruneExactly` | src/results/src/lib.rs:68-74 | pruning evicts exactly the owners registered the time to live ago or earlier |
| `HubSpec.RegisteredUntil` | src/results/src/lib.rs:46-74 | a registered bundle belongs to its searcher until it is that old |
| `PipelineStreams.PublishIsTwoSteps` | src/results/src/lib.rs:146-173 | on the hub, the state machine's resolve step followed by its deliver step is `publish` |
| `Results.BundleResults.Publish` | src/results/src/lib.rs:146-173 | resolve, then deliver, as the value-level hub does |
| `TrackerSpec.BatchMembership` | src/tracker/src/lib.rs:85-93 | the batch holds exactly the pending signatures with fewer than 256 smaller ones, strictly ascending |
| `TrackerSpec.KnownExactly` | src/tracker/src/lib.rs:106-112 | a status is attributed to a signature exactly when the reply has it at the signature's own position |
| `TrackerSpec.FinalizedExactly` | src/tracker/src/lib.rs:119-154 | a bundle is judged finalized if and only if each signature was asked about and reported finalized at its position of this reply |
| `TrackerSpec.ProcessedExactly` | src/tracker/src/lib.rs:119-157 | a bundle is judged processed if and only if each signature was reported confirmed or finalized at its position, not all are finalized, and it was not reported before; the slot is the latest one reported for its signatures |
| `TrackerSpec.ProcessedOnce` | src/tracker/src/lib.rs:155-157 | a processed entry stays, marked, and is never judged processed again |
| `TrackerSpec.LatestSlotIsMax` | src/tracker/src/lib.rs:146-150 | the slot is the largest reported for the signatures, zero if none is |
| `TrackerSpec.FinalizedIffRanked` | src/tracker/src/lib.rs:85-154 | a pending bundle finalized on chain is reported by a full answer if and only if each of its signatures has fewer than 256 smaller distinct ones pending |
| `TrackerSpec.FinalizedIffAsked` | src/tracker/src/lib.rs:98-154 | any bundle finalized on chain, late or not, is judged finalized by a full answer if and only if all its signatures were asked about |
| `TrackerSpec.FinalizedIsReported` | src/tracker/src/lib.rs:85-154 | corollary: with at most 256 distinct signatures pending, a bundle finalized on chain is reported by the next full answer |
| `TrackerSpec.FinalizedCanBeMissed` | src/tracker/src/lib.rs:91-145 | corollary: one signature with 256 smaller ones pending, and the bundle is neither finalized nor processed whatever the reply |
| `TrackerSpec.RemovalIsFiltering` | src/tracker/src/lib.rs:119-169 | removing the collected indices in descending order leaves exactly the unresolved entries, marked, in order |
| `TrackerSpec.SortDedupStrict` | src/tracker/src/lib.rs:163-165 | sorting and deduplicating the indices changes nothing |
| `TrackerSpec.LateEntriesSurvive` | src/tracker/src/lib.rs:85-169 | entries tracked while the request was in flight, within their deadline and with one signature that was not asked about, all stay in order, and the others are swept as if they were not there |
| `TrackerSpec.LeavesExactly` | src/tracker/src/lib.rs:119-168 | any entry, late or not, leaves if and only if each signature was reported finalized at its position, or its deadline has passed and this reply does not make it processed for the first time |
| `TrackerSpec.SweepAnnounces` | src/tracker/src/lib.rs:121-183 | a result is published if and only if some pending entry's verdict is that result |
| `TrackerSpec.OneAnnouncementEach` | src/tracker/src/lib.rs:121-183 | one poll publishes at most one result per bundle |
| `TrackerSpec.PublishedInTurn` | src/tracker/src/lib.rs:171-183 | one poll publishes processed, then finalized, then dropped |
| `Tracker.SignaturesOne` | src/tracker/src/lib.rs:68-71 | a packet contributes its primary signature, if it has one |
| `Tracker.SignaturesAdd` | src/tracker/src/lib.rs:68-71 | the signatures of a bundle are those of its packets, in order |
| `Tracker.SignatureMember` | src/tracker/src/lib.rs:68-71 | a signature is tracked if and only if some packet has it as primary |
| `Tracker.BundleTracker.Track` | src/tracker/src/lib.rs:67-81 | appends an entry unless the bundle has no signature; signature lists stay non-empty |
| `Tracker.BundleTracker.CollectBatch` | src/tracker/src/lib.rs:85-93 | computes the batch of the specification |
| `Tracker.BundleTracker.ApplyReply` | src/tracker/src/lib.rs:106-183 | the in-place sweep, removal by index and publishing order equal the filtering specification |
| `Tracker.BundleTracker.ReadReply` | src/tracker/src/lib.rs:106-112 | the loop computes the attribution of statuses |
| `Tracker.BundleTracker.JudgePending` | src/tracker/src/lib.rs:119-162 | the loop flags entries in place and fills the work lists as specified |
| `Tracker.BundleTracker.RemoveIndices` | src/tracker/src/lib.rs:163-168 | the loop removes by descending index |
| `PipelineTheorems.StepInv` | src/block_engine/src/main.rs:397-426 | every step of every task keeps the pipeline invariant |
| `PipelineTheorems.ResultLifecycle` | src/results/src/lib.rs:146-173 | in every interleaving, with `publish` split at its two locks, the results resolved for a uuid are a prefix of `Rejected` or of `Accepted Processed? (Finalized or Dropped)` |
| `PipelineTheorems.StreamLifecycle` | src/results/src/lib.rs:158-173 | every stream shows, per bundle, a subsequence of the resolved results with nothing after a terminal one, and only bundles registered to its searcher |
| `PipelineStreams.NothingIsMissed` | src/results/src/lib.rs:163-168 | in every run, a stream that is open and not full whenever something arrives for its searcher holds exactly what was delivered to the searcher since it was added, in order |
| `PipelineStreams.RetainAt` | src/results/src/lib.rs:164-168 | where an open stream stands once the closed ones are gone, and that it has been offered the message |
| `PipelineTheorems.NothingIsLost` | src/results/src/lib.rs:146-157 | while the owner is on record, everything decided has been resolved except the publication still to do |
| `PipelineTheorems.StageExclusivity` | src/block_engine/src/main.rs:404-425 | at every reachable state a uuid is in at most one of: a call, the buffer, the running ranking, the undelivered winners, the tracker |
| `PipelineTheorems.PublishersAreDisjoint` | src/block_engine/src/main.rs:404-425 | the auction task and the poll task never publish for the same uuid at once |
| `PipelineTheorems.SimFailureIsFinal` | src/auction/src/lib.rs:138-153 | a bundle rejected by simulation is never accepted and never forwarded, at any point of the run |
| `PipelineTheorems.RunExtends` | src/results/src/lib.rs:146-173 | histories and registrations are never taken back |
| `PipelineTheorems.ForwardedOnce` | src/block_engine/src/main.rs:414-423 | no bundle is sent to the validators' channel twice |
| `PipelineSimulation.WinnersSimulated` | src/block_engine/src/main.rs:408-414 | in every run with a simulator, a winner is unsimulated if and only if it was not yet buffered when its tick began; a simulated one succeeded |
| `PipelineSimulation.SimulatedIffBuffered` | src/block_engine/src/main.rs:408-414 | the same for every bundle that enters the auction |
| `PipelineWitness.LateBundleWins` | src/block_engine/src/main.rs:408-414 | a concrete run, for any bundle that fits, in which it arrives during the pass and wins unsimulated: the documented "before they can win" (README.md:102-103) fails |
| `PipelineAcceptance.AcceptedIffTaken` | src/auction/src/lib.rs:228-234 | in every run, at every state: a bundle was accepted if and only if it has been forwarded, is being sent, waits to be handed over, or is the one whose send failed |
| `PipelineAcceptance.ForwardedExactly` | src/block_engine/src/main.rs:414-423 | a bundle has been forwarded if and only if it was accepted, is not in the tick task's hands, and its send has not failed |
| `PipelineAcceptance.StopsForGood` | src/block_engine/src/main.rs:419-422 | after a failed send nothing more is ever sent |
| `PipelineWitness.AcceptedNotForwarded` | src/block_engine/src/main.rs:414-423 | a concrete run in which a bundle is reported accepted and its send fails: the documented "and was forwarded" (README.md:130) fails |
| `PipelineExpiry.ExpiredHearsNothing` | src/auction/src/lib.rs:208-213 | in every run, a buffered bundle that has expired or failed simulation when an auction starts gets no result from then on, and an expired one that had not failed never gets any |
| `PipelineExpiry.DoneIsFinal` | src/auction/src/lib.rs:211-238 | nothing more is ever decided for a bundle that no component holds |
| `PipelineWitness.ExpiredWitness` | src/auction/src/lib.rs:211-213 | a concrete run in which a bundle expires and hears nothing: the documented "remainder are reported as auction losers" (README.md:98) fails |
| `PipelineTheorems.AuctionRefinement` | src/auction/src/lib.rs:201-238 | an auction whose publications interleave with all other tasks still decides what the atomic auction decides on the buffer it started with: winners, used compute, and the result of every drained bundle, winner or loser |
| `PipelineTheorems.BundleConservation` | src/auction/src/lib.rs:109-123 | at every reachable state: received = won + dropped + buffered + between counting and pushing + in the running auction |
| `PipelineVerdicts.VerdictsAreEarned` | src/tracker/src/lib.rs:83-183 | in every run, a bundle reported finalized, processed or dropped was tracked with at least one signature and judged by an earlier answer to an earlier request that bears the result out: each signature reported finalized at its position; each at least confirmed, some not finalized, slot the latest one reported; or the deadline passed, some not finalized, and some not confirmed or processed before |
| `PipelineVerdicts.BatchOrigin` | src/tracker/src/lib.rs:83-120 | in every run, a poll in flight asked about the batch of what was tracked at its request, and since then entries were only appended |
| `PipelineVerdicts.FinalizedIsAnnounced` | src/tracker/src/lib.rs:83-178 | in every run, a full truthful answer gets a tracked bundle that is final on chain decided finalized if and only if all its signatures were in the request; for a bundle tracked at the request, if and only if each had fewer than 256 smaller ones pending |
| `PipelineVerdicts.OnlyAnswersDecide` | src/tracker/src/lib.rs:98-183 | no step but an answered poll decides on finalized, processed or dropped |
| `PipelineOrigins.TrackedOrigin` | src/block_engine/src/main.rs:414-419 | in every run, a tracked entry was handed over by the tick, with that winner's signatures, and is tracked since that moment |
| `PipelineOrigins.TrackedUntilResolved` | src/block_engine/src/main.rs:414-419 | in every run with a tracker, a winner that has signatures is tracked from its hand-over until it is decided finalized or dropped |
| `PipelineOrigins.BufferOrigin` | src/auction/src/lib.rs:109-122 | in every run, a buffered bundle carries the score of its packets and the time at which it was pushed |
| `PipelineOrigins.OwnerOrigin` | src/searcher/src/server.rs:72-86 | in every run, the searcher a bundle is registered to is the one who sent it |
| `Leaders.LeaderTracker.Poll` | src/leader_tracker/src/lib.rs:52-96 | one iteration, with its reload and window loops, computes the specified cache and published set |
| `Leaders.LeaderTracker.Reload` | src/leader_tracker/src/lib.rs:69-75 | the nested loop indexes the reply by absolute slot |
| `Leaders.LoadIsFaithful` | src/leader_tracker/src/lib.rs:62-76 | whatever the iteration order of a truthful reply, the loaded index is the true leader of exactly the epoch's slots |
| `Leaders.CacheSoundness` | src/leader_tracker/src/lib.rs:52-96 | over every run with failed requests, missing schedules and epoch changes in any order: each cached entry names the true leader, and the published set is exactly the leaders of the last polled window within the loaded epoch |
| `Leaders.UpcomingExactly` | src/leader_tracker/src/lib.rs:88-95 | over every run, an identity is upcoming if and only if it leads some slot, from the last polled one to the lookahead later, of the loaded epoch |
| `Leaders.LoadedOnce` | src/leader_tracker/src/lib.rs:66-68 | while the node reports the loaded epoch the index is left alone |
| `Leaders.CompleteIffLoaded` | src/leader_tracker/src/lib.rs:66-96 | the published set holds all leaders of the window within the current epoch if and only if that epoch's schedule is loaded, or a later one is whose part of the window has the same leaders; with none or an earlier one it is empty |
| `Leaders.CompleteInOrder` | src/leader_tracker/src/lib.rs:66-96 | when the node never goes back to an earlier epoch: complete if and only if loaded, otherwise empty |
| `Leaders.BackwardsCanBeComplete` | src/leader_tracker/src/lib.rs:66-96 | when it does go back, the set can be complete with the later schedule loaded: the witness |
| `Forwarding.StepInv` | src/validator/src/server.rs:127-161 | every step of producers, channel, forwarder and subscribers keeps the lane invariant |
| `ForwardingTheorems.ForwarderOrder` | src/validator/src/server.rs:194-221 | each validator stream, restricted to one producer, is a duplicate-free in-order subsequence of what that producer sent |
| `ForwardingTheorems.ChannelConservation` | src/block_engine/src/main.rs:282-299 | per producer: dequeued, queued and pending items together are exactly what it took in, in order |
| `ForwardingTheorems.GrowthIsGated` | src/validator/src/server.rs:194-220 | a stream grows exactly when its subscriber is offered the item, there is no tracker or its identity is in the published set at that moment, it is open and has fewer than 1000 unread items, and it grows by exactly that item |
| `ForwardingTheorems.OfferedWhileLeading` | src/validator/src/server.rs:55-60 | every item on a stream was offered at a moment when the identity was in the published set or there was no tracker |
| `ForwardingTheorems.OnlyClosedRemoved` | src/validator/src/server.rs:148-155 | in every run only subscriptions whose stream is closed are removed |
| `ForwardingTheorems.ExpiryEndToEnd` | src/relayer/src/server.rs:150-164 | whatever is on a stream passed the forwarder's check no later than reception time plus its expiry window; a zero window never expires |
| `ForwardingTheorems.EachItemCounted` | src/validator/src/server.rs:129-142 | every dequeued item is counted once, as expired if and only if its window has elapsed |
| `ForwardingTheorems.SubscriptionOrigin` | src/validator/src/server.rs:248-264 | in every run, a subscription stands for the identity that asked for it |
| `ForwardingTheorems.ReceiptOrigin` | src/relayer/src/server.rs:150-164 | in every run, a receipt records what came in, with its expiry window and the time it came in |
| `Forwarder.ServedExactly` | src/validator/src/server.rs:194-221 | of the subscribers in the published set when looked at (all, without a tracker), those with an open stream and fewer than 1000 unread items get the item, those with a closed stream are removed, nobody else is touched |
| `Forwarder.SubscriberTable.Handle` | src/validator/src/server.rs:129-155 | an expired item touches nobody; any other is served to everybody under the leaders published when each one is looked at |
| `Forwarder.SubscriberTable.Forward` | src/validator/src/server.rs:194-221 | the loop offers to every subscriber, whatever the order and however the leaders change in between, and collects exactly the gated closed ones |
| `Forwarder.SubscriberTable.RemoveAll` | src/validator/src/server.rs:151-154 | exactly the failed ones are removed |
| `Forwarder.RoundIsServed` | src/validator/src/server.rs:148-155 | a round of the state machine, in any order and with leaders changing between offers, equals what the loop does |
| `EndToEnd.WinnersArriveOnce` | src/block_engine/src/main.rs:414-423 | in every joint run of pipeline and lane, each validator stream shows an in-order part of the bundles the auction forwarded, none twice, each accepted by the auction |
| `EndToEnd.RunCoupled` | src/block_engine/src/main.rs:414-423 | in every joint run the channel holds, of the auction, exactly what the tick has sent, in order, and the winner being sent waits in front of it |
| `EndToEnd.NobodyWaits` | src/block_engine/src/main.rs:414-423 | the joint steps restrict neither side: a winner can always be handed over, and enters the channel exactly when there is room |
| `Auth.AuthState.TakeChallenge` | src/auth/src/token.rs:85-91 | removes the entry and returns it only if unexpired |
| `Auth.AuthService.GenerateAuthChallenge` | src/auth/src/server.rs:57-75 | a challenge is issued if and only if the key has 32 bytes and there is no list or its base58 form is on it; the error of the others |
| `Auth.AuthService.GenerateAuthTokens` | src/auth/src/server.rs:77-139 | the outcome and claims of a login attempt, what each counter counts, and that the challenge is used up by the attempt either way |
| `AuthSpec.LoginExactly` | src/auth/src/server.rs:77-126 | when a login succeeds, and with which code it fails, in terms of the request, the list and the stored challenge |
| `AuthSpec.RefusalCodes` | src/auth/src/interceptor.rs:40-70 | when a call is let through, and with which code it is refused |
| `AuthSpec.RefreshCodes` | src/auth/src/server.rs:141-156 | when a refresh succeeds, and with which code it is refused |
| `AuthSpec.TakeIsExact` | src/auth/src/token.rs:83-100 | for any placement of prunes, a take answers what the full log of creations and removals says |
| `AuthSpec.PrunesAreInvisible` | src/auth/src/token.rs:93-100 | erasing every prune changes no later take |
| `AuthRuns.TokenProvenance` | src/auth/src/interceptor.rs:40-70 | in every run, an admitted token has the required role and traces through zero or one refresh to one login with a verified signature over its nonce, and that to one unexpired challenge, for the same key and role; with a list, the key is on it |
| `AuthRuns.AccessOrigin` | src/auth/src/server.rs:141-156 | every signed access token comes from a login directly or through one refresh of that login's refresh token |
| `AuthRuns.RefreshOrigin` | src/auth/src/server.rs:128-131 | every signed refresh token comes from a login |
| `AuthRuns.LoginOrigin` | src/auth/src/server.rs:88-126 | a login consumed the key's own challenge, created before, unexpired, not taken in between |
| `AuthRuns.OnePairPerNonce` | src/auth/src/server.rs:88-131 | each nonce yields at most one pair of tokens |
| `AuthRuns.SessionEnds` | src/auth/src/server.rs:141-156 | no call is admitted later than refresh plus access lifetime after the login its token comes from, up to twice the leeway |
| `AuthRuns.LoginOpensService` | src/auth/src/interceptor.rs:40-65 | at every later point of a run, the access token of a login opens the services of its role exactly until it expires |
| `AuthRuns.LoginRefreshes` | src/auth/src/server.rs:141-156 | at every later point of a run, the refresh token of a login can be exchanged for an access token of the same key and role exactly until it expires |
| `AuthRuns.HonestLoginSucceeds` | src/auth/src/server.rs:57-139 | in every run, a key that is on the list, or any key when there is none, gets a challenge, and a login that signs it in time and undisturbed succeeds |
| `Interest.InterestRegistry.ObserveBundle` | src/interest/src/lib.rs:36-71 | stamps exactly the writable keys and called programs of the decodable packets |
| `Interest.WritableExactly` | src/interest/src/lib.rs:51-63 | a transaction with a well-formed header writes exactly the keys at the two writable ranges |
| `Interest.CalledExactly` | src/interest/src/lib.rs:65-69 | a transaction calls exactly the static keys its instructions name as programs |
| `Interest.TouchedExactly` | src/interest/src/lib.rs:47-50 | a bundle touches what its decodable packets touch |
| `Interest.ReportIsExact` | src/interest/src/lib.rs:36-102 | with stamps in order and for any placement of prunes, a key is reported if and only if the full log has a young observation of it |
| `Interest.HeldExactly` | src/interest/src/lib.rs:36-92 | for every log: a key is held with a stamp if and only if its last observation carries it and every later prune finds it young |
| `Interest.ReportedIffLastYoung` | src/interest/src/lib.rs:43-102 | for every log, with no assumption on clocks: a key is reported if and only if its last observation is young and every later prune found it young |
| `Interest.ReportedIsRecent` | src/interest/src/lib.rs:43-102 | the half that survives every overlap of observing, pruning and reporting: reported implies recently observed |
| `Interest.ReportMatchesLog` | src/interest/src/lib.rs:36-102 | for every log: the report agrees with the full log on a key if and only if, whenever some observation is young, the one applied last is young and no later prune found it old |
| `Interest.OverlapHidesKey` | src/interest/src/lib.rs:43-45 | the other half fails when an older stamp is applied last: a first witness |
| `Interest.EarlyReaderMissesKey` | src/interest/src/lib.rs:83-96 | and when a pruner with a later clock overtakes a reporter: the second witness, with stamps in order |
| `Interest.PrunesAreInvisible` | src/interest/src/lib.rs:81-102 | erasing every prune leaves a key's report as it is if and only if its last observation is old already or no later prune saw a clock by which it was old; prunes that read no later clock than the reporter meet this |
| `Interest.WritableRanges` | src/interest/src/lib.rs:108-120 | for every header, well formed or not, the writable positions are two ranges of the stated sizes |
| `Interest.WellFormedRanges` | src/interest/src/lib.rs:105-120 | for a well-formed header: the signers but the last read-only ones, and the others but the last read-only ones |
| `Interest.WritableCount` | src/interest/src/lib.rs:105-120 | the writable positions number all keys minus both read-only counts if and only if the header is well formed or declares nothing read-only |

## Left out

- gRPC servers, TLS, HTTP, command line, signals and logging: plumbing.
- Bincode, Base58, Ed25519, JWT and protobuf codecs: parameters of the model.
- src/simulator: any sequence of outcomes is allowed.
- src/jito_upstream: an arbitrary producer of bundles and packets.
- Metrics rendering, and wrap-around of the process-wide counters, which are unbounded here.
- Liveness: nothing says that a step is eventually taken.
- Exact binary64 arithmetic: the factors by which the rounded quotient differs from the exact
  one, and its monotonicity, are conditions of the theorems and are not derived.
- Iteration order of hash maps in reports: accounts and programs of interest are sets.
- Disconnection of the forwarder's channels: a run of the lane then simply ends.
- The text fields of results (validator identity, auction id, messages) and the reason of a
  drop, which are constants in the source.
- Fee and endpoint getters, heartbeats, unimplemented searcher calls, test clients.
- The `observe_bundle` call inside `send_bundle` is not a step of the pipeline, since it
  touches no pipeline state; `Interest` treats it with its own log.
- Failure of JWT encoding in `issue`: tokens are always signed.
- Auction.AuctionHouse.Submit: the count and the push are one operation here; `Pipeline` has
  them as two steps.
- AuctionTheorems.BidMonotonicity: asks for a monotone ranking number; `RankMonotonicity` is the
  form for an arbitrary one.
- The one-line methods that insert into, look up or filter a table (`register`,
  `add_subscriber`, `create_challenge`, the prunes, the two interest reports,
  `is_upcoming_leader`, the subscribe calls) have no row: their contracts are their bodies.
  What they keep is stated by the theorems about the stores.
