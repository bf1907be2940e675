# A Dafny model of the simulation tools

The repository studies a real-time strategy game: it searches for good openings, plans an
economy, reads recorded games and save files, generates a structure-of-arrays state layout and
reproduces a checksum channel. This project models the parts of those tools that are hard to get
right and proves what they promise.

- **Opening simulator and search** (`analysis/opening.py`). Time is specified frame by frame
  (`OpeningWorld`, `OpeningTime`); the class `OpeningState.W` jumps from event to event as the
  source does and is proved to reach the same states. `OpeningAfford` shows that the wait solver
  finds the least count, `OpeningSeating` what the greedy seating guarantees, `OpeningRuns` and
  `OpeningClaims` what every run of purchases keeps, `OpeningOrder` when prerequisites come first,
  `OpeningGranary` when a queued granary counts, `OpeningPend` that nothing reads the order of the
  queue. The ordering search is `DpModel` (queue and pools as values), `DpLoop` (the loop),
  `DpSets` and `DpLists` (what trimming keeps, without an order of arrival and with one), `DpRun`
  (what every run keeps, whatever ties), `DpSearch` (runs against an order-free reference),
  `DpOrder` and `DpQueue` (runs with pruning against runs without it), `DpTies` (how pruning can
  change the answer), `DpTales` and `DpShapes` (for which amounts it can), `DpImage` (searches whose
  states correspond) and `DpOpening` (the search on opening states). `OpeningSample` is a small
  rule table, `OpeningTies` and `OpeningCases` the openings on it that show what fails.
- **Economy and planner** (`analysis/econ.py`, `analysis/plan.py`). `PlanModel` is the planner on
  values, `PlanState.Planner` the class that updates it in place, `PlanSafety` and `PlanStep` the
  argument that a payment is covered, `PlanRuns` whole plans, `PlanOverdraft` the run in which a
  payment is not covered.
- **Recorded games** (`analysis/corpus.py`, `re/scripts/rcx_parse.py`). `ReplayPackets` decodes
  padded packages, `ReplayStream` finds and reads the record stream, `ReplayRecover` recovers the
  key and the pad seed, `ReplaySplit` compares the two packet splitters.
- **Save sections** (`re/scripts/savegame_cities.py`, `re/scripts/savegame_graphic_events.py`).
  `SaveCodec` and `SaveGrammar` build grammars out of exact codecs, `SaveSections` states both
  sections, `SaveReader`, `CitiesReader` and `GraphicEventsReader` are the parsers as they run.
- **State columns** (`re/scripts/gen_sim_state.py`). `ColumnCover` is the coverage test,
  `ColumnLayout` the plane allocation, `ColumnBlock` the emitted column block.
- **Rules checksum** (`tools/rules-channel-assets.py`). `Adler` is Adler-32 (sections 2.2 and 8.2
  of RFC 1950), `RulesWalk` and `RulesImages` the walks and the normalised images, `TypeTree` the
  from-chain test.

`Arith`, `Accumulator` and `Costs` are shared. `dafny verify dfyconfig.toml` checks everything.

## Where the code does something else than its documentation

- `legal` does not test the prerequisites of citizens, farms and cities. Prerequisites come first
  for everything in every run exactly when no such item can be bought before its own
  (`OpeningOrder.OrderedRuns`); `OpeningCases.CitizenEarly` is a table where it fails.
- The opening's income reads the granary counter, which includes queued granaries, although the
  comment above the counters says that income uses only what is built (`analysis/opening.py:229-232`,
  `301`). `OpeningGranary.GranaryEarly` says exactly when the two differ, and
  `OpeningCases.GranaryFeeds` is a run in which a worker earns 24 where 16 is built.
- `plan.step` treats an unanswerable second wait as no wait (`analysis/plan.py:280`), so it can pay
  money it does not have. `PlanStep.PaymentCovered` gives the exact condition and
  `PlanOverdraft.OverdrawsFromFresh` a three-action plan that ends with metal at minus nine.
- `dp_search` keeps, of states that tie in its sort key, the one that arrived first, and pruning
  changes the order of arrival. `OpeningCases.PruningChangesBest` is an opening, reached by a run,
  whose best horizon is 11 with pruning and 10 without it. Only a tie at an exposed node can do
  this: at least three names, more purchases than are required, and yet something required missing
  (`DpQueue.PruningKeepsBest`). With at most two names, or at most one purchase to spare, there is
  no such node. Amounts required and allowed that have one fail for some purchases, whichever they
  are, if only the missing name is put first (`DpShapes.HarmlessShapes`).
- The two packet splitters differ exactly on payloads that one of them takes and that hold a chat
  or spline packet only one table knows (`ReplaySplit.SplittersAgree`), which needs more than 1044
  bytes (`ReplaySplit.ShortAgree`, `ReplaySplit.SplittersDiffer`).
- `zero_row` and `copy_row` address cells plane by plane, array accessors row by row. They agree
  exactly when a field has at most one element or the block one row
  (`ColumnBlock.ClearsFieldExactly`, `ColumnBlock.CopiesFieldExactly`).

## Model

| member | source | states |
|---|---|---|
| `Accumulator.AccrueSplit` | analysis/opening.py:327-336 | gathering in two stretches at one income credits what one stretch credits |
| `Accumulator.AccrueReaches` | analysis/opening.py:395-396 | the ceiling formula is the least number of frames after which the accumulator covers a cost |
| `Accumulator.AccrueMonotone` | analysis/econ.py:339-352 | more income never credits less over the same frames |
| `OpeningState.W.constructor` | analysis/opening.py:186-222 | constructing a state fills the unset counters and seats a state in which nobody works |
| `OpeningState.W.Clone` | analysis/opening.py:224-226 | a copy is a new object that went through the constructor again |
| `OpeningState.W.Reseat` | analysis/opening.py:262-285 | both greedy passes, in place, give the specified seating and touch nothing else |
| `OpeningState.W.Tick` | analysis/opening.py:327-336 | the accumulator loop credits every resource as that many single frames at this income would |
| `OpeningState.W.Land` | analysis/opening.py:343-349 | landed techs raise their level or the age, in order |
| `OpeningState.W.Flush` | analysis/opening.py:338-353 | everything due lands at once, a finished crew is released, and seats change only if something happened |
| `OpeningState.W.NextEvent` | analysis/opening.py:355-363 | the least frame strictly before the target at which a job or the crew finishes, none if there is none |
| `OpeningState.W.Jump` | analysis/opening.py:369-375 | one turn of the event loop stops at the next event or at the target, in a state the frame machine reaches |
| `OpeningState.W.Advance` | analysis/opening.py:365-376 | the event loop reaches exactly the state of the frame-by-frame machine, from every state and queue, whatever its leftovers |
| `OpeningState.W.LongestWait` | analysis/opening.py:387-396 | the longest wait over the resources still short, none when one of them earns nothing |
| `OpeningState.W.WaitRound` | analysis/opening.py:382-408 | one round of the wait gives the least count, or none when no count up to the limit is enough, or passes an event with nothing affordable before it |
| `OpeningState.W.FramesToAfford` | analysis/opening.py:378-409 | an answer is the least count for which `advance` covers the cost, across every income change; no answer means no count up to the limit does, for any queue short of 255 jobs |
| `OpeningState.W.Queue` | analysis/opening.py:511-527 | the counter moves at queue time, the effect waits in the queue, seats are recomputed |
| `OpeningState.W.Occupy` | analysis/opening.py:502-506 | the server is busy until completion; a building takes its crew off the fields |
| `OpeningState.W.Place` | analysis/opening.py:500-508 | pay, occupy, log and queue give exactly the specified state |
| `OpeningState.W.AtServer` | analysis/opening.py:484-493 | a copy at the frame from which the server is free |
| `OpeningState.W.Apply` | analysis/opening.py:484-508 | from any state, seated or not, the purchase happens on a copy, at the first frame with the server free and the money there; refusing means there is none within the limit, for any queue short of 255 jobs |
| `OpeningTime.TickSplit` | analysis/opening.py:327-336 | gathering for a then b frames with nothing landing is gathering for a + b |
| `OpeningTime.FlushIdempotent` | analysis/opening.py:338-353 | landing twice is landing once |
| `OpeningTime.AdvanceAdd` | analysis/opening.py:365-376 | `advance(a)` then `advance(b)` is `advance(a + b)`, from any state |
| `OpeningTime.QuietRun` | analysis/opening.py:327-376 | a stretch with no completion strictly inside is one accumulation and one landing |
| `OpeningTime.JumpRefines` | analysis/opening.py:365-376 | one jump of the event loop lands on a state the frame machine reaches |
| `OpeningTime.AdvanceRan` | analysis/opening.py:365-376 | waiting moves the clock and lands what is due; orders, servers and counters, hence prices, do not move |
| `OpeningTime.StepsConserve` | analysis/opening.py:327-336 | stock times period plus leftover grows by exactly the income of every elapsed frame |
| `OpeningTime.StepsLeftover` | analysis/opening.py:331-335 | the leftover stays inside one period |
| `OpeningAfford.TooEarly` | analysis/opening.py:387-396 | before the next completion no count below the longest wait is enough |
| `OpeningAfford.LongEnough` | analysis/opening.py:387-408 | with no completion up to it, the longest wait is enough |
| `OpeningAfford.WaitIsFirst` | analysis/opening.py:378-409 | the count found by jumping is the one a frame-by-frame search finds first |
| `OpeningSeating.SeatFair` | analysis/opening.py:262-285 | workers fit their slots, workers and builders fit the built citizens, and an idle citizen means food, timber and metal slots are full |
| `OpeningSeating.UsefulSlotsLeast` | analysis/opening.py:279-285 | the useful slots are the least number of workers with which a resource reaches its cap |
| `OpeningSeating.SeatPriority` | analysis/opening.py:262-277 | nobody works on a later resource of the order while an earlier one has a slot that still earns |
| `OpeningSeating.CloneIdentity` | analysis/opening.py:214-226 | copying is the identity exactly when the counters are set and the seating is in use or already the computed one |
| `OpeningSeating.AtServerSeated` | analysis/opening.py:484-495 | from a seated state, neither copy that a purchase takes changes anything |
| `OpeningSeating.AtServerSteady` | analysis/opening.py:484-495 | from any state, the state in which a purchase waits for money is not changed by copying it again |
| `OpeningRuns.ApplyFrom` | analysis/opening.py:484-508 | from any state a purchase is a wait of its copy, ending with the server free and the cost covered, then the placement |
| `OpeningRuns.ApplyShape` | analysis/opening.py:484-508 | a purchase is a wait in which no price moves, ending in the first affordable state with the server free, then the placement |
| `OpeningRuns.PreqsDone` | analysis/opening.py:457-481 | what `legal` accepted as a prerequisite is complete when the purchase starts, also when it was only queued |
| `OpeningRuns.ApplyInv` | analysis/opening.py:457-527 | a legal purchase keeps the whole invariant of money, seats, counters, servers, log and prerequisites |
| `OpeningRuns.RunInv` | analysis/opening.py:457-527 | every run of legal purchases and waits keeps it |
| `OpeningClaims.OneJobPerServer` | analysis/opening.py:484-527 | in every reachable state at most three jobs are pending, on different servers, each due when its server is free, and logged jobs of one server do not overlap |
| `OpeningClaims.PrerequisitesFirst` | analysis/opening.py:457-481 | in every reachable state a logged item with tested prerequisites starts no earlier than each of them completes |
| `OpeningOrder.BuyOrdered` | analysis/opening.py:457-508 | a purchase keeps the log in order exactly when its own prerequisites are complete as it starts, and for the items `legal` tests they always are |
| `OpeningOrder.OrderedRuns` | analysis/opening.py:457-481 | every run has every prerequisite complete before what needs it starts, exactly when no citizen, farm or city can be bought in any run before its own are |
| `OpeningOrder.NoUntestedPreqs` | analysis/opening.py:457-463 | so it is in tables in which those three have no prerequisites |
| `OpeningOrder.UntestedPrerequisites` | analysis/opening.py:457-463 | and it is not when one that has some can be bought at the start |
| `OpeningCases.CitizenEarly` | analysis/opening.py:457-459 | a table in which a citizen is trained at the start without the tech it asks for |
| `OpeningGranary.GranaryEarly` | analysis/opening.py:299-317 | in every reachable state income differs from income with built granaries only exactly on food, with granaries queued and none built, a bonus worth a unit after rounding and no clamp biting without it; then it is higher |
| `OpeningCases.GranaryFeeds` | analysis/opening.py:229-301 | a reachable state in which a worker earns 24 food units while the granary is being built, and 16 are built |
| `OpeningClaims.WorkersFit` | analysis/opening.py:262-285 | reachable states satisfy the seating bounds |
| `OpeningClaims.CopyUnchanged` | analysis/opening.py:214-226 | copying a reachable state changes nothing although the constructor runs again |
| `OpeningClaims.NeverOverdrawn` | analysis/opening.py:495-501 | in reachable states no stock is negative and every leftover is inside one period |
| `OpeningClaims.RunConserves` | analysis/opening.py:327-336 | over any run, stock and leftover plus everything spent equal the start value plus the income of every elapsed frame |
| `OpeningClaims.HorizonGrows` | analysis/opening.py:545-547 | `apply` never lowers the horizon, from any state |
| `OpeningClaims.SettleEmpties` | analysis/opening.py:550-554 | from any state settling runs to the horizon and leaves nothing pending |
| `DpSets.TrimIs` | analysis/opening.py:646-656 | the trimmed list holds exactly the states that are first of their mark with fewer than `keep` marks before them |
| `DpSets.GoodKept` | analysis/opening.py:622-656 | states at or above a bound never change which better states trimming keeps |
| `DpLists.TrimAbsorb` | analysis/opening.py:644-656 | trimming what was trimmed before, with newcomers, is trimming everything at once, ties included and in order |
| `DpLists.GoodTrim` | analysis/opening.py:646-656 | cutting a list at a bound and trimming it commute |
| `DpLists.TrimGood` | analysis/opening.py:646-656 | below a bound the trimmed list holds exactly the first states of the marks when none of the states below the bound tie |
| `DpLists.TrimSame` | analysis/opening.py:646-656 | two lists of the same states, none of which tie, trim to the same list |
| `DpLoop.CollectGot` | analysis/opening.py:628-634 | the legal and affordable purchases of one name from a pool, in order |
| `DpLoop.OfferAll` | analysis/opening.py:638-643 | the running best over a batch of completed states, with the settled state it belongs to |
| `DpLoop.TrimSorted` | analysis/opening.py:647-655 | the mark loop keeps one state per mark, at most `keep` and at least one |
| `DpLoop.BuyOne` | analysis/opening.py:625-659 | one name bought from one node updates best, child pool and queue as specified and leaves the node's pool alone |
| `DpLoop.Search` | analysis/opening.py:594-660 | the loop ends after the visits of the specification; it answers with the horizon of a state that buys everything required and that state settled; with or without pruning the horizon is the least over the order-free reference, when purchases never lower the horizon and no two states of a node tie at or below it |
| `DpLoop.BestExists` | analysis/opening.py:594-660 | the reference has one best horizon and no other, unless nothing completes |
| `DpLoop.Ends` | analysis/opening.py:617-621 | every search, pruned or not, comes to an end |
| `DpRun.VisitInv` | analysis/opening.py:617-659 | every visit, expanded or passed over and whatever ties, keeps the queue ordered by level and every pool equal to what its parents contributed, in queue order, trimmed once |
| `DpRun.Cause` | analysis/opening.py:637-643 | the best horizon is that of a state some visit bought, better than the best at that time |
| `DpSearch.GoodPools` | analysis/opening.py:617-659 | when a node is taken off the queue all its parents are behind it, and its pool agrees with the reference below the best horizon |
| `DpSearch.OverIsBest` | analysis/opening.py:594-660 | a search that is over has the best horizon of the reference, unless states at or below it tie |
| `DpOrder.PoolShares` | analysis/opening.py:617-659 | below the best horizon a pool is what its parents have to contribute, in queue order, trimmed: nodes passed over would add nothing |
| `DpOrder.SameBest` | analysis/opening.py:617-660 | two finished searches, pruned or not, have the same best horizon when at every node with something required missing no states tie at or below it or the queues hold its parents in the same order |
| `DpQueue.SameWayTwo` | analysis/opening.py:624-659 | the parents of a node of at most two names are in the same order in every queue |
| `DpQueue.SameWayEarly` | analysis/opening.py:617-659 | the parents of a node of no more purchases than are required are in the same order with pruning and without it |
| `DpQueue.PruningKeepsBest` | analysis/opening.py:617-660 | pruning does not change the best horizon, whatever ties elsewhere, when no states of an exposed node tie at or below it |
| `DpQueue.TwoNamesPrune` | analysis/opening.py:594-660 | with at most two names pruning never changes the best horizon |
| `DpQueue.OneExtraPrune` | analysis/opening.py:594-660 | with at most one purchase to spare pruning never changes the best horizon |
| `DpTies.StoryDiffers` | analysis/opening.py:617-656 | any task in which a node passed over turns two tying orders of three purchases round ends one frame later with pruning than without |
| `DpTales.StepsLexed` | analysis/opening.py:617-659 | where histories determine nodes, the queue holds nodes in the order of the histories that first lead to them; a dead end is passed over when pruning, and then it leads to none |
| `DpTales.TaleDiffers` | analysis/opening.py:617-656 | told a dead end and two ways to one node in that order, a search ends at 2 with pruning and at 1 without |
| `DpShapes.ShortFails` | analysis/opening.py:594-660 | amounts with an exposed node short of the first name have a task for which pruning changes the best horizon |
| `DpShapes.HarmlessShapes` | analysis/opening.py:594-660 | for all amounts required and allowed: whichever name comes first, pruning never changes the best horizon of any task, exactly when there is no exposed node |
| `OpeningTies.SearchesDiffer` | analysis/opening.py:594-660 | on the sample table the two finished searches from a state that is the empty opening but for its log find 11 with pruning and 10 without |
| `OpeningCases.PruningChangesBest` | analysis/opening.py:594-660 | so they do from a state that a run reaches, on states as the search records them |
| `OpeningCases.SearchStart` | analysis/opening.py:610 | a run reaches the state those searches start from |
| `OpeningPend.TwinApply` | analysis/opening.py:457-527 | legality, price, wait and result of a purchase depend neither on the log nor on the order in which jobs were queued |
| `DpImage.StepsImage` | analysis/opening.py:617-660 | a map that respects legality, purchases and sort keys carries a search to a search, visit by visit: same queue, same nodes expanded, same best, pools mapped |
| `DpOpening.SearchStrips` | analysis/opening.py:594-660 | the search on recorded states goes with the one on states without log and queue order, for every number of visits, and its pools are theirs |
| `DpOpening.OpeningMonotone` | analysis/opening.py:545-547 | the horizon never falls along any order of purchases, from any start |
| `DpOpening.OpeningBest` | analysis/opening.py:594-660 | a finished opening search, on recorded states and from any start, has the best horizon of the reference unless two orders of the same purchases that a purchase can tell apart tie at or below it |
| `DpOpening.OpeningPruning` | analysis/opening.py:594-660 | on recorded states and from any start pruning keeps the best horizon unless two orders of the same purchases that a purchase can tell apart tie at or below it at an exposed node |
| `DpOpening.AnswerSettled` | analysis/opening.py:550-643 | the state an opening search answers with has nothing pending and stands at the horizon reported |
| `DpOpening.Commute` | analysis/opening.py:484-527 | two purchases that can both be made at once and leave each other's price and time alone give different recorded states and one state of the search |
| `DpOpening.PairApart` | analysis/opening.py:594-660 | a task of two such purchases, each at most once, has no ties |
| `OpeningCases.BothCommute` | analysis/opening.py:484-527 | a citizen and a university on the sample table are such a task |
| `PlanState.Planner.constructor` | analysis/plan.py:74-75 | a copied plan has its state constructed again, which seats everyone it counts as unseated |
| `PlanState.Planner.ClipSeats` | analysis/plan.py:128-130 | nobody stands beyond the slots |
| `PlanState.Planner.TrimSeats` | analysis/plan.py:131-138 | citizens leave metal, timber, food in turn until the crew is manned or nobody works |
| `PlanState.Planner.FillOne` | analysis/plan.py:139-141 | unseated citizens fill one resource one by one |
| `PlanState.Planner.Reseat` | analysis/plan.py:122-141 | the three loops give the specified assignment |
| `PlanState.Planner.Apply` | analysis/plan.py:81-119 | a completion has its effect and everybody is seated again |
| `PlanState.Planner.Elapse` | analysis/econ.py:339-352 | the accumulator runs at the present income |
| `PlanState.Planner.FramesUntilAffordable` | analysis/econ.py:354-370 | the longest wait at the present income, none beyond the limit or when nothing is earned |
| `PlanState.Planner.Pay` | analysis/econ.py:372-374 | every resource is reduced by its cost |
| `PlanState.Planner.Drain` | analysis/plan.py:157-166 | the queue is sorted and every completion up to the frame is applied on the way |
| `PlanState.Planner.Enqueue` | analysis/plan.py:287-298 | paying, occupying the server and queueing the completions |
| `PlanState.Planner.Finish` | analysis/plan.py:268-286 | waiting for server and money, pricing again and the second look, with every refusal |
| `PlanState.Planner.Step` | analysis/plan.py:256-298 | `step` on a copy agrees with the specification, refusals included |
| `PlanSafety.SortKeeps` | analysis/plan.py:159 | sorting loses and invents no completion |
| `PlanSafety.DrainKeeps` | analysis/plan.py:157-183 | draining takes exactly what is due off the queue and leaves the rest in frame order; it keeps owned plus queued of every kind; levels and techs only grow; servers are untouched |
| `PlanSafety.QuoteStays` | analysis/plan.py:186-253 | a legal unit or building action stays legal across a drain at the same price, and so does a tech that is not pending |
| `PlanSafety.LandRaisesIncome` | analysis/econ.py:298-322 | income never falls across a completion when the crew is off the fields |
| `PlanSafety.WaitEnough` | analysis/econ.py:354-370 | the wait returned is enough at the present income |
| `PlanSafety.DrainCovers` | analysis/plan.py:157-166 | from a state with the crew off the fields, a wait that is enough stays enough with completions on the way |
| `PlanStep.OnePrice` | analysis/plan.py:267-279 | while it waits, `step` sees one price and the second pricing does not refuse a legal action that is not pending |
| `PlanStep.PaymentCovered` | analysis/plan.py:268-287 | the money is there when `pay` runs exactly when the second look is not left without an answer |
| `PlanStep.CoveredWithoutCrew` | analysis/plan.py:256-287 | when copying leaves the crew off the fields the payment is always covered |
| `PlanRuns.StepOk` | analysis/plan.py:256-298 | every action leads from a sound plan to a sound plan |
| `PlanRuns.RunCovered` | analysis/plan.py:256-298 | over any list of actions from a sound plan all payments are covered exactly when no second wait stays without an answer |
| `PlanRuns.RunSolvent` | analysis/plan.py:256-298 | and then a plan that starts out of debt stays out of debt |
| `PlanOverdraft.ExampleExists` | analysis/plan.py:186-253 | the tables of the overdrawing plan are admissible |
| `PlanOverdraft.Overdraws` | analysis/plan.py:273-287 | a plan in which `step` pays ten metal with one in stock |
| `PlanOverdraft.OverdrawsFromFresh` | analysis/plan.py:256-298 | study, build, train from a fresh plan: the third step overdraws |
| `ReplayPackets.PadRandom.NextPad` | analysis/corpus.py:144-153 | the generator steps once per draw and the draw is one bit of its low half |
| `ReplayPackets.Commands` | analysis/corpus.py:277-302 | all packets of a package or none |
| `ReplayPackets.Decodes` | analysis/corpus.py:319-332 | accepts exactly the packages from which `commands` emits |
| `ReplayPackets.XorPayload` | analysis/corpus.py:156-163 | whole words are flipped with the key in place, a trailing byte stays |
| `ReplayPackets.DecodeEncode` | analysis/corpus.py:277-302 | whatever the padding holds, a package decodes to the packets it was made from |
| `ReplayPackets.EncodeDecode` | analysis/corpus.py:277-302 | every package that decodes is well-formed packets each followed by exactly its padding |
| `ReplayPackets.XorTwice` | analysis/corpus.py:156-163 | flipping twice is the identity |
| `ReplayPackets.RoundTrip` | analysis/corpus.py:111-163 | for all packets, keys, seeds and pad bytes the padded and flipped package decodes to the packets |
| `ReplayPackets.OnlyImagesDecode` | analysis/corpus.py:111-163 | a recorded payload decodes only if it is such an image |
| `ReplaySplit.SplitCommands` | re/scripts/rcx_parse.py:316-327 | the other splitter, packet by packet, with its clean flag |
| `ReplaySplit.SizesAgree` | re/scripts/rcx_parse.py:295-313 | both tables take the first packet at the same length or both refuse it, exactly when it is not a chat or spline packet that fits and only one of them knows |
| `ReplaySplit.SplittersAgree` | re/scripts/rcx_parse.py:192-327 | on a payload of any length the splitters agree on acceptance and on the cuts exactly when they meet no such packet or both refuse the payload |
| `ReplaySplit.ShortAgree` | re/scripts/rcx_parse.py:192-327 | up to 1044 bytes they always agree |
| `ReplaySplit.SplittersDiffer` | analysis/corpus.py:124-130 | a chat packet of 1045 bytes that one splitter accepts and the other refuses |
| `ReplayStream.FindStream` | analysis/corpus.py:182-225 | the start of a chain of valid records that tiles to the end with the greatest count of any, highest offset on ties; no answer means there is no chain |
| `ReplayStream.ReadRecords` | analysis/corpus.py:305-316 | reading from an offset yields the specified records |
| `ReplayStream.ChainHasLength` | analysis/corpus.py:205-221 | the backward count is the length of the only chain from an offset |
| `ReplayStream.RecordsOfChain` | analysis/corpus.py:305-316 | reading from the start of a chain yields exactly its records |
| `ReplayStream.StreamIsRead` | analysis/corpus.py:182-225 | the stream found is read to the last byte, record for record |
| `ReplayRecover.NextSeedMod` | analysis/corpus.py:139-153 | the low half of the next generator state is a function of the low half of this one |
| `ReplayRecover.SameLowDecode` | analysis/corpus.py:144-153 | seeds equal modulo 2^16 decode every package alike |
| `ReplayRecover.CandidateDecodes` | analysis/corpus.py:335-364 | the 256 candidates of the key of G contain one that decodes every payload exactly as G does |
| `ReplayRecover.Shortlist` | analysis/corpus.py:354-363 | the seeds that score best on the probe; one that decodes all of it stays |
| `ReplayRecover.Winner` | analysis/corpus.py:364-369 | the best seed of the list over all packages and its count |
| `ReplayRecover.KeyRecovers` | analysis/corpus.py:345-369 | the key of a state that explains the recording leads to a seed under which everything decodes |
| `ReplayRecover.Recover` | analysis/corpus.py:335-375 | the count is the number of packages that decode under the key and seed returned; it is all of them whenever the key of an explaining state is ranked |
| `SaveCodec.IntExact` | re/scripts/savegame_cities.py:367-380 | little-endian integers of every width and sign read back as written and are written as read |
| `SaveGrammar.ArrExact` | re/scripts/savegame_cities.py:431-480 | counted arrays with history are exact both ways |
| `SaveGrammar.PtrArrExact` | re/scripts/savegame_cities.py:549-631 | pointer arrays with presence plane and repeated history are exact both ways |
| `SaveSections.CitiesExact` | re/scripts/savegame_cities.py:383-662 | any well-formed section followed by any bytes reads back as itself, and whatever is accepted is the writing of what was read |
| `SaveSections.ChainWroteThis` | re/scripts/savegame_graphic_events.py:243-303 | an accepted group chain is the writing of the groups read |
| `SaveSections.ChainReadBack` | re/scripts/savegame_graphic_events.py:243-303 | a written chain, of any admitted length, reads back as itself |
| `SaveSections.GraphicEventsExact` | re/scripts/savegame_graphic_events.py:211-311 | the same for the whole section and every slot count |
| `SaveReader.Reader.Take` | re/scripts/savegame_cities.py:356-365 | the next bytes, or nothing when they run past the end |
| `SaveReader.Reader.Plane` | re/scripts/savegame_cities.py:587-595 | a plane is read whole and refused unless boolean |
| `CitiesReader.ParseString` | re/scripts/savegame_cities.py:412-428 | a counted wide string, refused beyond the limit |
| `CitiesReader.ParseCaravans` | re/scripts/savegame_cities.py:431-480 | the caravan array, by count, history and links |
| `CitiesReader.ParseCity` | re/scripts/savegame_cities.py:501-546 | flags alone for an inactive city, flags and body for an active one |
| `CitiesReader.ParseOwner` | re/scripts/savegame_cities.py:549-631 | one owner's pointer array with every check in stream order |
| `CitiesReader.ParseCitiesSection` | re/scripts/savegame_cities.py:634-662 | an answer is exactly a well-formed section standing at the offset and ending where reported; no answer means none stands there |
| `GraphicEventsReader.ParseEvent` | re/scripts/savegame_graphic_events.py:211-215 | type, then as much payload as the type has |
| `GraphicEventsReader.ParseEventArray` | re/scripts/savegame_graphic_events.py:218-240 | one event array with every check in stream order |
| `GraphicEventsReader.ParseGroup` | re/scripts/savegame_graphic_events.py:243-252 | 38 arrays, civ, age and the next byte |
| `GraphicEventsReader.ParseChain` | re/scripts/savegame_graphic_events.py:292-303 | groups until a next byte is zero, refused when too long |
| `GraphicEventsReader.ParseRawArray` | re/scripts/savegame_graphic_events.py:255-267 | a trailing array by count, history and raw elements |
| `GraphicEventsReader.ParseGraphicEventsSection` | re/scripts/savegame_graphic_events.py:270-311 | an answer is exactly a well-formed section for the slot count standing at the offset and ending where reported; no answer means the count is out of range or none stands there |
| `ColumnCover.CutAll` | re/scripts/gen_sim_state.py:217-225 | cutting a range out of disjoint or overlapping pieces leaves exactly the bytes outside it |
| `ColumnCover.Covers` | re/scripts/gen_sim_state.py:210-228 | a field with bytes is covered exactly when each lies in some range, for any ranges; one without bytes exactly when a range straddles it |
| `ColumnLayout.BuildClass` | re/scripts/gen_sim_state.py:271-321 | every field is described, and stored fields share the planes of the first owner at their offset when shapes agree and otherwise take the next free planes of their pool |
| `ColumnLayout.OwnersDisjoint` | re/scripts/gen_sim_state.py:309-317 | intervals of different owners in a pool are disjoint and inside it |
| `ColumnLayout.PlaneOwned` | re/scripts/gen_sim_state.py:309-317 | every plane of a pool belongs to an owner |
| `ColumnLayout.SharedOrDisjoint` | re/scripts/gen_sim_state.py:298-317 | two stored fields of a pool share their interval or have no plane in common |
| `ColumnLayout.CellsDistinct` | re/scripts/gen_sim_state.py:625-628 | cells of owners are in bounds and two of them coincide only when field, row and element do |
| `ColumnLayout.SlotIsCell` | re/scripts/gen_sim_state.py:539-542 | every slot of a pool is a cell |
| `ColumnBlock.Columns.constructor` | re/scripts/gen_sim_state.py:535-544 | an empty block of zeroed pools |
| `ColumnBlock.Columns.PushZeroed` | re/scripts/gen_sim_state.py:552-559 | a cleared row is appended unless the block is full |
| `ColumnBlock.Columns.ZeroRow` | re/scripts/gen_sim_state.py:560-565 | the row is cleared in every plane of all four pools and nothing else changes |
| `ColumnBlock.Columns.CopyRow` | re/scripts/gen_sim_state.py:566-576 | the row is copied in every plane of all four pools and nothing else changes |
| `ColumnBlock.Columns.Pop` | re/scripts/gen_sim_state.py:578 | the last row is dropped |
| `ColumnBlock.Columns.Truncate` | re/scripts/gen_sim_state.py:579 | the length never grows |
| `ColumnBlock.PushOnPlane` | re/scripts/gen_sim_state.py:553-565 | a push appends a zero to every plane |
| `ColumnBlock.RemoveOnPlane` | re/scripts/gen_sim_state.py:566-578 | copying the last row over another and dropping it is a swap-remove on every plane |
| `ColumnBlock.ZeroRowOnPlane` | re/scripts/gen_sim_state.py:560-565 | for scalar fields clearing a row clears that entry and no other |
| `ColumnBlock.CopyRowOnPlane` | re/scripts/gen_sim_state.py:569-576 | for scalar fields copying a row copies that entry and changes no other |
| `ColumnBlock.ClearsFieldExactly` | re/scripts/gen_sim_state.py:560-628 | clearing a row clears the elements the accessors read in that row, and no others, for all contents exactly when the field has at most one element or the block one row |
| `ColumnBlock.WipesAnother` | re/scripts/gen_sim_state.py:560-565 | otherwise an element of another row is cleared |
| `ColumnBlock.CopiesFieldExactly` | re/scripts/gen_sim_state.py:569-628 | copying between two rows is right for all contents exactly when the field has at most one element |
| `Adler.AdlerConcat` | tools/rules-channel-assets.py:282-285 | continuing a checksum is checksumming the concatenation |
| `Adler.AdlerSums` | tools/rules-channel-assets.py:282-285 | both halves in closed form from any reduced start |
| `Adler.AdlerIsDefined` | tools/rules-channel-assets.py:282-285 | the checksum of a message is the pair of sums that section 2.2 of RFC 1950 defines |
| `RulesWalk.Walk.Update` | tools/rules-channel-assets.py:282-285 | the running value is that of everything visited so far |
| `RulesWalk.Walk.UpdateArray` | tools/rules-channel-assets.py:293-301 | an array contributes its count and, if nonempty, its history and elements |
| `RulesWalk.Walk.UpdateType` | tools/rules-channel-assets.py:287-301 | a type contributes its ranges in order with the arrays after the second |
| `RulesWalk.WalkTypes` | tools/rules-channel-assets.py:276-302 | the type walk is one Adler-32 over the visited bytes and its count is their number |
| `RulesImages.NormalizedImage` | tools/rules-channel-assets.py:870-875 | visited bytes are kept and every other byte is zero; the result has the size of the kind exactly when the image has that many bytes |
| `RulesImages.NormalisedWalk` | tools/rules-channel-assets.py:870-875 | walking normalised images visits the same bytes and gives the same checksum |
| `RulesImages.MaskIgnores` | tools/rules-channel-assets.py:870-875 | two images normalise to the same bytes exactly when they agree on every visited byte |
| `RulesImages.NormalizeTribeRecords` | tools/rules-channel-assets.py:457-471 | 24 masked records, or refusal when the capture has another size |
| `RulesImages.NormalisedTribes` | tools/rules-channel-assets.py:572-577 | normalising the records leaves the walked payload as it was |
| `RulesImages.TribeWalkedPayload` | tools/rules-channel-assets.py:572-577 | refused unless the set is complete, and otherwise of the declared number of bytes |
| `RulesImages.WalkStaticPrefix` | tools/rules-channel-assets.py:769-785 | one Adler-32 over constants, the duplicated word and the balance table, with refusals and byte count |
| `RulesImages.WalkStaticRules` | tools/rules-channel-assets.py:788-804 | the whole channel is one Adler-32 over prefix and visited tribe bytes, and the byte count is theirs |
| `TypeTree.IsSlow` | tools/rules-channel-assets.py:195-222 | it stops; true exactly when the target is a type or a graft on the from-chain before anything is wrong with it, false exactly when the chain ends without it, an error exactly when the chain leaves the table or repeats first |

## Left out

- Command-line entry points, file and table loading, gzip, hashing, printing and reports: library code and I/O. Loaded tables are parameters.
- `run_order`, the beam searches `search` and `beam_search`, and the report sections of the opening tool: they reuse the modelled operations and promise nothing further.
- DpQueue.PruningKeepsBest: one direction for a given task; which ties at exposed nodes do harm depends on everything bought afterwards. Over all tasks of a shape it is exact up to the order of names (`DpShapes.HarmlessShapes`); a shape whose missing name is not the first may be harmless in its own order.
- DpLoop.Search: sorting is a function, as it is a library call in the source.
- OpeningState.W.Apply: with 255 or more jobs pending a refusal promises nothing, since the wait looks past 256 completions at most; no run has more than three.
- PlanState.Planner.Step: the economy state is one record field of the planner that its methods reassign, so aliasing of two plans to one state is not modelled.
- PlanState.Planner.FramesUntilAffordable: takes the ceiling of an exact quotient where the source goes through a floating-point one.
- ReplayRecover.Recover: the ranking of keys by frequency is a parameter.
- ReplayPackets.Commands: one package at a time; stamps and players travel along unchanged and are left out.
- CitiesReader.ParseCitiesSection: inner offsets and hashes kept with every image are left out, only the end of the section is reported; the debugger layout is the one the source demands, as a constant.
- GraphicEventsReader.ParseRawArray: raw data is grouped by element, where the source keeps one block of bytes.
- ColumnLayout.BuildClass: takes fields with their C type already classified, in any order; parsing C types, removing duplicates and sorting by offset and name are left out, and the result holds for every order.
- ColumnBlock.Columns.CopyRow: rows must be below the capacity, which the source meets by a panic otherwise; splitting two mutable planes out of a pool is left out.
- Adler.AdlerSums: starts with a half of 65521 or more, which the library reduces in its own way, are not covered.
- RulesWalk.WalkTypes: array headers and elements must fit their packed width, which is what the loader reads.
- Rebuilding the object arrays from `is_slow`, capture parsing and asset validation: loops over the modelled test and comparisons with recorded constants.
