# The round engine and payment ledger of pallet-chainlink-feed

`pallet-chainlink-feed` is a Substrate port of Chainlink's FluxAggregator. Oracles submit values to
numbered rounds of a feed. A round opens once its predecessor can be superseded, is answered by the
median of its submissions from the minimum count on, stops accepting at the maximum count, is closed
with its predecessor's answer when it times out, and is pruned in the end. Each accepted submission
earns its oracle the payment fixed when the round was opened; the payment is reserved from a shared
fund or added to the feed's debt.

This project models that machinery twice and connects the two:

- as values: `Feeds` gives the meaning of every check and mutator of one feed, `Pallets` the meaning of
  every call (`Step`) and of every sequence of calls (`Execute`), together with a history of openings and
  accepted submissions and a ledger of payouts, which the pallet neither stores nor reads;
- in place: `FeedProxy` holds the storage maps and the `Feed` proxy with its write-on-drop configuration,
  `Extrinsics` the calls with their transactions. Every method is proved to compute `Step`, errors and
  order of checks included.

What is proved is then proved about all runs. `FeedInvariant` states one inductive invariant of a feed;
`RoundSteps`, `FeedSteps`, `Progress`, `Clocks`, `Origins` and `Ledgers` show that each operation keeps its
parts and only moves a feed forward; `Runs` lifts this to every call and every run from genesis. The theorems
are in `Consumers` and `Finality` (what readers may rely on), `Oracles` and `Tenure` (who may submit and start
rounds, and until when), `Creation` and `Terms` (that feeds and rounds are as their owners set them), `Requesters`
(the rate limit of requests), `Stalls` (when the next round can be opened), `Liveness` (when submissions are taken, and
that rounds can be answered), `Money` (solvency, earnings, conservation, atomicity) and `Refusals` (what errors
mean). `Examples` holds concrete runs that mark where the guarantees end. `Medians` is about `median`, `Totals` about sums over maps.

A state is `Reachable` when some sequence of calls leads to it from some genesis. The calls include block
production, endowment of the fund, and completed transfers of ownership and administration, in any order.
Values, balances and block numbers are naturals with the runtime's maxima as parameters; round ids are
32 bits wide and overflow or saturate exactly where the code does.

Where the code and its documentation disagree, the model follows the code:

- `max_debt` of `None` means unlimited debt (lib.rs:844-846), although lib.rs:93 says no debt is allowed;
  `NoLimitAllowsDebt` is a run into debt, and `FundingIff` says when a payment can be funded.
- `reduce_debt` can be called by any signed account (lib.rs:1125), although lib.rs:1118 says by the admin;
  `DebtCanBeCleared` says when it clears a feed's debt.
- `first_valid_round` is promised to be the first round with non-default data (lib.rs:1639, lib.rs:257-259).
  It always has data, and every stored round before it has only the seed, but its own data can be the seed too:
  because it timed out after it was answered (`TimeoutTakesAnswerAway`), or because pruning moved it to the
  oldest stored round, whatever that holds (lib.rs:1546, `PruningUncoversDefault`).
  `FirstValidIsNonDefaultIff` says exactly when the promise is kept.
- `is_timed_out` does not ask whether the round is answered (lib.rs:1379-1394), so opening a round can
  replace the answer of the current one; `TimeoutTakesAnswerAway` is a run on which it does,
  `AnswerSurvivesOpeningIff` says exactly when, and `AnswersFollowHistory` what every answer is in the end.
- `withdraw_payment` is not transactional (lib.rs:1032-1034); `FailuresChangeNothing` and `LedgerSolvency`
  say exactly what that costs.
- A pruning window of one can stop a feed for ever; `WindowOfOneStalls` and `StallIsPermanent` show it, and
  `RequestSucceedsIff` and `WideRunsNeverStall` bound it.

## Model

| member | source | states |
|---|---|---|
| `Medians.SortedUnique` | pallet-chainlink-feed/src/utils.rs:26-27 | a sorted arrangement of a multiset is unique, so `Sort` is what any sorting algorithm, stable or not, leaves in the slice |
| `Medians.MedianIgnoresOrder` | pallet-chainlink-feed/src/utils.rs:26-35 | the median and the sorted slice are the same for every permutation of the input |
| `Medians.MajorityBoundsMedian` | pallet-chainlink-feed/src/utils.rs:26-35 | if strictly more than half of the values lie in `[lo, hi]` and twice `lo` does not saturate, so does the median |
| `Medians.MedianRobustIff` | pallet-chainlink-feed/src/utils.rs:29-34 | majorities in `[lo, hi]` always decide the median if and only if twice `lo` fits in the value type |
| `Medians.MedianInBoundsIff` | pallet-chainlink-feed/src/utils.rs:29-34 | the median of values that all lie in `[lo, hi]` does too if and only if their number is odd or twice `lo` fits in the value type |
| `Medians.MedianByRanks` | pallet-chainlink-feed/src/utils.rs:26-35 | what the median is, told by counting instead of sorting: the value of middle rank or, for an even number of values, half the sum of the two values of middle rank, rounded down, where the sum stops at the largest value |
| `Medians.SortInPlace` | pallet-chainlink-feed/src/utils.rs:27 | the slice ends up as the sorted permutation of what it held |
| `Medians.MedianInPlace` | pallet-chainlink-feed/src/utils.rs:26-35 | sorts the caller's slice and returns the middle element or half the saturating sum of the two middle ones |
| `FeedProxy.Feed.EnsureValidRound` | pallet-chainlink-feed/src/lib.rs:1346-1408 | accepts, or fails with the first violated condition, as `Feeds.EnsureValidRound` does, by the same checks for timed out, updated and supersedable rounds |
| `FeedProxy.Feed.CloseTimedOutRound` | pallet-chainlink-feed/src/lib.rs:1588-1601 | carries answer and answering round over from the predecessor, drops the details, and fails if either round is missing; no other feed changes |
| `FeedProxy.Feed.InitializeRound` | pallet-chainlink-feed/src/lib.rs:1559-1584 | closes a timed out predecessor, then stores a blank round and details with the feed's current terms; setting the reporting round first makes no difference |
| `FeedProxy.Feed.RequestNewRound` | pallet-chainlink-feed/src/lib.rs:1674-1688 | opens the round after the reporting one, or fails on overflow, on a round that cannot be superseded or on a missing predecessor |
| `FeedProxy.Feed.PruneOldest` | pallet-chainlink-feed/src/lib.rs:1529-1551 | removes the oldest round and its details exactly when the window is exceeded, and says whether it did |
| `FeedProxy.Feed.UpdateFutureRounds` | pallet-chainlink-feed/src/lib.rs:1491-1526 | stores new terms, or fails with the first violated condition |
| `FeedProxy.Feed.AddOracles` | pallet-chainlink-feed/src/lib.rs:1414-1467 | the loop computes `Feeds.AddOracles`, for arbitrary lists including duplicates |
| `FeedProxy.Feed.DisableOracles` | pallet-chainlink-feed/src/lib.rs:1471-1486 | the loop computes `Feeds.DisableOracles`, for arbitrary lists including duplicates |
| `FeedProxy.Feed.OpenIfEligible` | pallet-chainlink-feed/src/lib.rs:761-784 | opens the submitted round exactly when it is next and the oracle's restart delay has passed; the new status is not stored yet |
| `FeedProxy.Feed.Record` | pallet-chainlink-feed/src/lib.rs:786-793 | takes the details out of storage with the value appended and stores the oracle's status |
| `FeedProxy.Feed.StoreAnswer` | pallet-chainlink-feed/src/lib.rs:806-825 | stores the answer, moves the latest round, and closes the previous round to submissions |
| `FeedProxy.Feed.Publish` | pallet-chainlink-feed/src/lib.rs:801-827 | answers the round with the median of its submissions, leaves them sorted, and prunes one round |
| `FeedProxy.Feed.Accept` | pallet-chainlink-feed/src/lib.rs:786-833 | together with putting the returned details back below the maximum, it computes `Feeds.Accept` |
| `FeedProxy.Feed.Drop` | pallet-chainlink-feed/src/lib.rs:1603-1616 | the proxy's configuration, and nothing else, is written back |
| `FeedProxy.AcceptByTaking` | pallet-chainlink-feed/src/lib.rs:786-863 | taking the details out first and putting them back last equals updating them in place, across answering, closing the previous round and pruning |
| `FeedProxy.Synced` | pallet-chainlink-feed/src/lib.rs:1603-1616 | rows written through the proxy plus the dropped configuration change exactly one feed of the whole storage |
| `FeedProxy.Storage.constructor` | pallet-chainlink-feed/src/lib.rs:1233-1243 | storage at genesis stands for `Genesis` |
| `Extrinsics.Rollback` | pallet-chainlink-feed/src/utils.rs:12-21 | everything a transaction may have written is as it was |
| `Extrinsics.FundSubmission` | pallet-chainlink-feed/src/lib.rs:835-851 | reserves the payment or adds it to the debt, failing on overflow or beyond the debt limit |
| `Extrinsics.CreditOracle` | pallet-chainlink-feed/src/lib.rs:853-858 | adds the payment to the oracle's balance, failing on overflow or a missing oracle |
| `Extrinsics.Submit` | pallet-chainlink-feed/src/lib.rs:743-867 | state and result are those of `Step`: the whole submission on success, the old state on any error (when it succeeds: `ReportIff`, `LateReportIff`, `StartIff`) |
| `Extrinsics.ChangeOracles` | pallet-chainlink-feed/src/lib.rs:872-889 | likewise for disabling and then adding oracles (when: `ChangeOraclesIff`; what: `StatusAfterChange`) |
| `Extrinsics.UpdateFutureRounds` | pallet-chainlink-feed/src/lib.rs:894-917 | likewise for the terms of future rounds (when and what: `UpdateIff`, `NewTermsApply`) |
| `Extrinsics.PruningConverges` | pallet-chainlink-feed/src/lib.rs:720-725 | one pruning step does not move the state that pruning ends in, and that state is reached when a step does nothing |
| `Extrinsics.PruneThrough` | pallet-chainlink-feed/src/lib.rs:719-725 | the loop terminates and removes exactly the rounds and details outside the new window |
| `Extrinsics.SetPruningWindow` | pallet-chainlink-feed/src/lib.rs:705-728 | state and result are those of `Step`, with no transaction |
| `Extrinsics.RequestNewRound` | pallet-chainlink-feed/src/lib.rs:974-1005 | state and result are those of `Step`; on an error the turn of the requester is given back (what it records: `RequestIsRecorded`) |
| `Extrinsics.WithdrawPayment` | pallet-chainlink-feed/src/lib.rs:1012-1038 | state and result are those of `Step`; a refused transfer keeps the amount unreserved (what it moves: `PayoutEffect`) |
| `Extrinsics.WithdrawFunds` | pallet-chainlink-feed/src/lib.rs:1095-1114 | state and result are those of `Step` |
| `Extrinsics.ReduceDebt` | pallet-chainlink-feed/src/lib.rs:1120-1134 | state and result are those of `Step`, although the proxy is written back on an error too |
| `Extrinsics.CreateFeed` | pallet-chainlink-feed/src/lib.rs:575-657 | state and result are those of `Step`: a complete feed or nothing, the feed counter included |
| `Runs.GenesisInv` | pallet-chainlink-feed/src/lib.rs:1233-1243 | the invariant holds at genesis |
| `Runs.StepKeeps` | pallet-chainlink-feed/src/lib.rs:567-1214 | every call, successful or not, keeps the invariant of all feeds and of the books, and moves every feed forward |
| `Runs.RunKeeps` | pallet-chainlink-feed/src/lib.rs:567-1214 | so does every run |
| `Runs.ReachableInv` | pallet-chainlink-feed/src/lib.rs:567-1214 | the invariant holds in every reachable state |
| `Consumers.DataIsAWindow` | pallet-chainlink-feed/src/lib.rs:1538-1601 | stored rounds are round 0 and every id from the next to prune up to the reporting one; details lie in that range; rounds have all of answer, update time and answering round or none; only the reporting round may have none |
| `Consumers.HasDataIff` | pallet-chainlink-feed/src/lib.rs:801-815 | a stored round has data if and only if a later one was opened or its accepted submissions reached its minimum |
| `Consumers.LatestIsServed` | pallet-chainlink-feed/src/lib.rs:1649-1661 | `latest_data` never takes its default branch; the first valid round is absent exactly when the latest round is 0, otherwise it lies in the window and `data_at` it has data (which data: `FirstValidIsNonDefaultIff`) |
| `Consumers.AnswerProvenance` | pallet-chainlink-feed/src/lib.rs:801-833 | every answer served is the seed, or the median of exactly the submissions accepted for the round it names, whose number is within that round's bounds |
| `Origins.OwnAfterOpening` | pallet-chainlink-feed/src/lib.rs:1565-1568 | opening a round takes the current one its own answer exactly by timeout, and changes no other round |
| `Consumers.AnswersFollowHistory` | pallet-chainlink-feed/src/lib.rs:801-815 | every stored answer is a function of the history: the median of the last round, up to the one asked for, that reached its minimum and was full or not expired when its successor was opened, or the seed if there is none |
| `Consumers.CarriedOverIff` | pallet-chainlink-feed/src/lib.rs:1588-1598 | a stored answer is carried over if and only if its round was below its maximum and expired when the next one was opened |
| `Consumers.FirstValidIsNonDefaultIff` | pallet-chainlink-feed/src/lib.rs:1639-1661 | stored rounds before the first valid one have only the seed; the data at the first valid and at the latest round is non-default if and only if some round up to it has an answer of its own; non-default data at the first valid round vouches for `latest_data` |
| `Consumers.FirstValidIs` | pallet-chainlink-feed/src/lib.rs:817-827 | the first valid round is the oldest stored one as soon as anything was pruned, before that the first round whose submissions reached its minimum, and absent as long as none did |
| `Consumers.CarryOverIsConsistent` | pallet-chainlink-feed/src/lib.rs:1559-1601 | if a round's answer names a round that is still stored, that round was answered in itself with the same answer, late submissions included |
| `Consumers.AnswersInBoundsIff` | pallet-chainlink-feed/src/lib.rs:757-759 | through medians, timeouts and carry-over, an answer is the seed 0, or within the feed's value bounds if and only if the answering round has an odd number of submissions or twice the lower bound fits in the value type |
| `Consumers.OpenRounds` | pallet-chainlink-feed/src/lib.rs:786-863 | a round with details has fewer submissions than its maximum, is answered exactly from its minimum on, by the median of exactly the accepted values, on the terms it was opened under, and its successor is not answered by its own submissions; the values are stored in order of acceptance below the minimum and sorted from then on |
| `Consumers.StoredTimes` | pallet-chainlink-feed/src/lib.rs:804-813 | a round's start is the block it was opened in, its update the block of its last submission or, if carried over, of the next opening; starts precede updates, which precede now |
| `Consumers.SettledRoundsAreFinal` | pallet-chainlink-feed/src/lib.rs:1358-1373 | along any run, a round below the latest one or more than one below the reporting one keeps its data until pruned and accepts nothing more |
| `Consumers.FullRoundsAreFinal` | pallet-chainlink-feed/src/lib.rs:860-863 | along any run, a round that reached its maximum keeps its data until pruned, even as the reporting round, was answered in itself, and accepts nothing more |
| `Finality.ClosedRoundsAreFinal` | pallet-chainlink-feed/src/lib.rs:786-863 | along any run, a stored round without details, be it full, timed out or superseded, has data, keeps it until pruned, never gets details again and accepts nothing more |
| `Consumers.CountersNeverDecrease` | pallet-chainlink-feed/src/lib.rs:817-827 | latest, reporting and next-to-prune round only grow along any run, and the bounds of values and debt never change |
| `Consumers.AnswerSurvivesOpeningIff` | pallet-chainlink-feed/src/lib.rs:1565-1568 | opening the next round leaves the data of the answered current round alone if and only if that round is not timed out |
| `Consumers.PruningIsExact` | pallet-chainlink-feed/src/lib.rs:719-725 | setting a window stores it, removes exactly the rounds and details below the larger of the old bound and `latest - window + 1`, changes no other, and never removes round 0 or the latest round |
| `Consumers.SetWindowIff` | pallet-chainlink-feed/src/lib.rs:710-717 | exactly the owner can set a window, and any but zero |
| `Consumers.WindowIsKeptIff` | pallet-chainlink-feed/src/lib.rs:826-827 | after a submission the stored rounds are within the window if and only if the answered round is at most one window above the oldest one or, if no round was answered, they were before |
| `Oracles.OneVoicePerOracle` | pallet-chainlink-feed/src/lib.rs:1354-1357 | the rounds an oracle submits to strictly increase, through disabling and re-adding, so a round's submissions come from distinct oracles and never exceed the maximum fixed at its opening |
| `Oracles.StatusNamesLastSubmission` | pallet-chainlink-feed/src/lib.rs:791-793 | an oracle's status holds round and value of an accepted submission of the highest round it reported, or nothing if it never reported |
| `Oracles.EnableEachIff` | pallet-chainlink-feed/src/lib.rs:1424-1464 | the loop succeeds if and only if the accounts are distinct, none is enabled and each comes with the admin on record |
| `Oracles.DisableEachIff` | pallet-chainlink-feed/src/lib.rs:1478-1484 | the loop succeeds if and only if the accounts are distinct and all enabled |
| `Oracles.DisabledStatuses` | pallet-chainlink-feed/src/lib.rs:1478-1484 | disabling sets the ending round of exactly the listed oracles to the reporting round |
| `Oracles.AddedStatuses` | pallet-chainlink-feed/src/lib.rs:1440-1462 | adding sets the starting round of exactly the listed oracles to the reporting round and clears their ending round; what they did before is kept |
| `Oracles.AddedBalances` | pallet-chainlink-feed/src/lib.rs:1425-1439 | unknown oracles are registered with the listed admin and no balance, known ones keep admin and balance |
| `Oracles.ChangeOraclesIff` | pallet-chainlink-feed/src/lib.rs:872-889 | in every reachable state the whole call succeeds if and only if the owner disables distinct enabled oracles and adds distinct ones that are not enabled then, with their admins, up to the limit |
| `Oracles.OraclesAfterChange` | pallet-chainlink-feed/src/lib.rs:880-888 | the enabled oracles are the old ones without the disabled ones and with the added ones |
| `Oracles.BalancesAfterChange` | pallet-chainlink-feed/src/lib.rs:880-888 | the call registers unknown oracles with its admins and changes no balance and no other record |
| `Tenure.StatusAfterChange` | pallet-chainlink-feed/src/lib.rs:880-888 | after the call, added oracles have a term that starts with the reporting round, disabled ones a term that ends with it, and all others the term they had |
| `Tenure.NewOraclesStartFromNow` | pallet-chainlink-feed/src/lib.rs:1349 | along any run, the starting round of an oracle never decreases and no submission of it to an earlier round is accepted |
| `Tenure.DisabledOraclesAreOut` | pallet-chainlink-feed/src/lib.rs:1350-1353 | on any run, from the call that disables an oracle until it is added again, no submission of it to a round above the one reported at that call is accepted |
| `Tenure.DisabledIsTold` | pallet-chainlink-feed/src/lib.rs:1350-1353 | in every reachable state, a submission of a disabled oracle to a round after its ending round fails with `OracleDisabled` |
| `Oracles.StartsAreFair` | pallet-chainlink-feed/src/lib.rs:761-784 | no two oracles share a last started round, and any two starts by one oracle are further apart than the restart delay in force at the later one |
| `Oracles.OracleCountIsExact` | pallet-chainlink-feed/src/lib.rs:1414-1486 | the count is the number of statuses without an ending round and within the limit |
| `Oracles.CanStartIff` | pallet-chainlink-feed/src/lib.rs:761-773 | an enabled oracle can start the round after a supersedable one if and only if it started none of the last `restart_delay` rounds, up to the last round id |
| `Oracles.SomebodyIsFree` | pallet-chainlink-feed/src/lib.rs:1503-1508 | with a restart delay below the oracle count, some enabled oracle started none of those rounds |
| `Oracles.SomebodyIsEligible` | pallet-chainlink-feed/src/lib.rs:1346-1375 | in every reachable state with such a delay and a supersedable reporting round, some enabled oracle passes `ensure_valid_round` for the next round and may start it |
| `Oracles.NobodyCanStartIff` | pallet-chainlink-feed/src/lib.rs:1503-1508 | in every reachable state with a supersedable reporting round and an id left, whatever the delay, nobody can start the next round if and only if every enabled oracle started one of the last `restart_delay` rounds |
| `Terms.UpdateIff` | pallet-chainlink-feed/src/lib.rs:1491-1526 | the owner can set exactly the terms that the oracles can meet, and they replace the old terms and nothing else |
| `Terms.NewTermsApply` | pallet-chainlink-feed/src/lib.rs:1570-1579 | along any run, from a call that sets terms until the next one, every round, opened by request or by submission, is opened on the payment, bounds, timeout and delay of the call, its details hold them, and earlier rounds keep theirs |
| `Creation.CreationIff` | pallet-chainlink-feed/src/lib.rs:588-653 | a feed can be created if and only if all conditions of the call hold: creator, description, window, limits, distinct oracles with their admins, and terms they can meet |
| `Creation.CreatedFeed` | pallet-chainlink-feed/src/lib.rs:606-656 | the new feed has the owner, bounds, terms, window and debt limit of the call, no debt, of rounds only the seed, and exactly the listed oracles, from round 0 on; no other feed and no funds change |
| `Creation.CreatedOracles` | pallet-chainlink-feed/src/lib.rs:1425-1439 | the oracles of the call are registered with its admins; known ones stay as they are |
| `Creation.CreationTermsApply` | pallet-chainlink-feed/src/lib.rs:604-653 | along any run, from creation until terms are set, every round is opened on the terms of the creation |
| `Stalls.RequestSucceedsIff` | pallet-chainlink-feed/src/lib.rs:1674-1688 | a round can be requested if and only if ids remain, the reporting round is supersedable, and it is not timed out with its predecessor missing |
| `Stalls.RequestExtrinsicIff` | pallet-chainlink-feed/src/lib.rs:974-1005 | the extrinsic on an existing feed succeeds if and only if, further, the caller is a requester whose delay has passed |
| `Requesters.RequestIsRecorded` | pallet-chainlink-feed/src/lib.rs:985-1001 | a successful request opens the next round and records it as the last one of its requester, whose delay had passed and is kept; nobody else is affected |
| `Requesters.EarlyRequestIsRefused` | pallet-chainlink-feed/src/lib.rs:993-996 | before the delay has passed, a request fails with `CannotRequestRoundYet` and changes nothing |
| `Requesters.PermissionsChange` | pallet-chainlink-feed/src/lib.rs:924-969 | the owner sets a delay and keeps the record of the requester, or removes both; no other requester is affected |
| `Requesters.RequestsAreSpaced` | pallet-chainlink-feed/src/lib.rs:989-999 | any two rounds a requester starts while it keeps its permission and delay are more than the delay apart, on any run |
| `Stalls.SupersedingCheckIff` | pallet-chainlink-feed/src/lib.rs:1369-1373 | in every reachable state, submissions to the current round pass the superseding check if and only if it is round 1 or the round before it is still stored |
| `Stalls.SomebodyCanStart` | pallet-chainlink-feed/src/lib.rs:743-867 | in every reachable state in which some enabled oracle is eligible as above and the feed is not stalled, if the payment can be funded and credited to the enabled oracles, the whole `submit` of one of them to the next round succeeds |
| `Stalls.WideRunsNeverStall` | pallet-chainlink-feed/src/lib.rs:1588-1601 | on every run on which the window of a feed has always been at least two, whatever happens to other feeds, the predecessor needed for closing is stored, a round can be requested if and only if an id is left and the reporting round is supersedable, and submissions to the current round pass the superseding check |
| `Stalls.StallIsPermanent` | pallet-chainlink-feed/src/lib.rs:1589-1590 | once the predecessor of a timed out reporting round is pruned, no run ever changes the feed's rounds again |
| `Liveness.ReportIff` | pallet-chainlink-feed/src/lib.rs:743-833 | in every reachable state, a feed takes a submission to its reporting round if and only if the oracle has a status that has not ended before the round, reported nothing as late and cannot overflow, the value is in bounds, the predecessor is stored or the seed, and the round is below its maximum; it earns the payment the round was opened with |
| `Liveness.ReportExtrinsicIff` | pallet-chainlink-feed/src/lib.rs:743-867 | the whole `submit` to the reporting round succeeds if and only if, further, the payment can be funded and credited |
| `Liveness.LateReportIff` | pallet-chainlink-feed/src/lib.rs:1360-1373 | in every reachable state, a feed takes a late submission to the round before the reporting one if and only if the oracle may report to it, the value is in bounds, the reporting round has no data, the round two before is stored or the seed, and the late round still has details |
| `Liveness.StartIff` | pallet-chainlink-feed/src/lib.rs:761-784 | in every reachable state, a feed takes a submission to the next round if and only if the oracle passes the checks and may start it, the value is in bounds and the feed is not stalled |
| `Liveness.OtherRoundsAreRefused` | pallet-chainlink-feed/src/lib.rs:1358-1368 | submissions to any other round are refused |
| `Liveness.OpenRoundCanBeAnswered` | pallet-chainlink-feed/src/lib.rs:743-867 | in every reachable state, if as many oracles as the reporting round is short of its minimum can report and be paid, there is a run of exactly so many submissions, with whatever admissible values, after which the round has its own answer |
| `Liveness.NextRoundCanBeAnswered` | pallet-chainlink-feed/src/lib.rs:1498-1511 | in every reachable state with a supersedable reporting round that is not stalled, if the enabled oracles are at least the minimum and more than the restart delay and can be paid, there is a run of submissions by enabled oracles, with whatever admissible values, that opens the next round and gives it its own answer |
| `Money.LedgerSolvency` | pallet-chainlink-feed/src/lib.rs:835-858 | over all feeds and oracles of every run, withdrawable balances equal the reserve plus all debts plus what refused payouts unreserved, hence equal reserve plus debts if and only if no payout was refused |
| `Money.FullBalanceIsPayable` | pallet-chainlink-feed/src/lib.rs:1022-1035 | without refused payouts and without debt, every oracle's full balance passes the reserve check and can be paid out |
| `Money.EarningsLedger` | pallet-chainlink-feed/src/lib.rs:853-858 | an oracle's balance plus everything paid for it equals the sum, over its accepted submissions on all feeds, of the payments fixed when those rounds were opened |
| `Money.FailuresChangeNothing` | pallet-chainlink-feed/src/utils.rs:12-21 | a failing call leaves the whole state unchanged if and only if it is not a refused payout of a positive amount |
| `Refusals.ErrorsTellTheTruth` | pallet-chainlink-feed/src/lib.rs:567-1214 | in every reachable state, whatever error a call fails with, its reason is a fact about the state and the call; among others, `submit` never fails with `OracleNotFound` and `create_feed` never with `MaxExceededTotal` |
| `Money.DebtWithinLimit` | pallet-chainlink-feed/src/lib.rs:844-848 | no reachable state has a feed above its debt limit |
| `Money.FundingIff` | pallet-chainlink-feed/src/lib.rs:838-851 | a payment can be funded if and only if it can be reserved, or added to the debt without overflow and within the limit, if there is one |
| `Money.SubmissionIsFunded` | pallet-chainlink-feed/src/lib.rs:835-858 | an accepted submission earns exactly the payment its round was opened with; the reserve grows by it if the fund can reserve it, otherwise the debt does |
| `Money.PayoutEffect` | pallet-chainlink-feed/src/lib.rs:1022-1035 | a payout takes its amount from the balance of the oracle and from the reserve and nothing from the free balance, unless the fund pays itself |
| `Money.RefusedPayoutEffect` | pallet-chainlink-feed/src/lib.rs:1032-1034 | a refused payout frees its amount and changes nothing else of the fund or the oracles |
| `Money.DebtReduction` | pallet-chainlink-feed/src/lib.rs:1128-1131 | any amount, up to the debt, is moved from the free balance to the reserve and taken off the debt, if the fund has it free |
| `Money.FundsWithdrawalIff` | pallet-chainlink-feed/src/lib.rs:1100-1113 | the admin can withdraw exactly what leaves the minimum free; the amount leaves the free balance and the reserve is not touched |
| `Money.FundConservation` | pallet-chainlink-feed/src/lib.rs:1022-1131 | over every run, free plus reserved funds are the initial balance plus endowments, less payouts and withdrawals to other accounts |
| `Examples.WindowOfOneStalls` | pallet-chainlink-feed/src/lib.rs:1588-1590 | a reachable state of a feed with a window of one that is stalled |
| `Examples.TimeoutTakesAnswerAway` | pallet-chainlink-feed/src/lib.rs:1565-1568 | a reachable state in which a request replaces the answer of the first valid and latest round by the seed, with nothing pruned |
| `Examples.PruningUncoversDefault` | pallet-chainlink-feed/src/lib.rs:1541-1546 | a reachable state in which pruning has made a round with the seed the first valid one |
| `Examples.SkippingExceedsWindow` | pallet-chainlink-feed/src/lib.rs:826-827 | a reachable state within its window from which one answer, after a skipped round, leads to more rounds than the window |
| `Examples.NoLimitAllowsDebt` | pallet-chainlink-feed/src/lib.rs:844-848 | from a reachable state with an empty fund, a submission puts a feed without a debt limit into debt |
| `Examples.RefusedPayoutLosesReserve` | pallet-chainlink-feed/src/lib.rs:1028-1035 | from a reachable state, a refused payout leaves the oracle its balance but nothing reserved for it |
| `Examples.DisablingCanBlockStarts` | pallet-chainlink-feed/src/lib.rs:880-888 | from a reachable state, disabling oracles leaves nobody entitled to start the next round, as the delay is not checked again |
| `Examples.LastRoundReopensIff` | pallet-chainlink-feed/src/lib.rs:761-784 | when the latest round is the last id, a submission that opens it again leaves it answered if and only if the minimum count is at most one |
| `Examples.LastRoundForgetsIff` | pallet-chainlink-feed/src/lib.rs:761-784 | answered or not, such a submission drops the ones before it, so the stored submissions are the accepted ones if and only if there were none |

## Left out

- Submitting to round `u32::MAX` while it is the reporting round, by an oracle entitled to start a round: runs exclude this one call. The saturating addition at lib.rs:761 makes it open the same round again; `Examples.LastRoundReopensIff` and `Examples.LastRoundForgetsIff` show the effect.
- A runtime whose `OracleCountLimit` is `u32::MAX`: the saturating addition at lib.rs:1418 would then lose count.
- `Value` types other than unsigned ones; vectors longer than 32 bits can count.
- Two-step transfers of feeds, oracles and the pallet, and feed creators: only their completed effect is a call of the model, allowed at any time.
- `set_requester` and `remove_requester`: modelled on values only, without an in-place method.
- `request_new_round` called by another pallet through `feed_mut`: modelled on values only, and as rolled back on an error, as its `require_transactional` marker demands of callers.
- The currency: a fund with a free and a reserved balance, which only this pallet reserves and unreserves. Existential deposits, locks and other reasons to refuse are one flag per call.
- `OnAnswerHandler`: assumed not to write this pallet's storage.
- Read-only proxies (`read_only_from`): they differ only in not being written back.
- Events, weights, decimals, description text (its length is checked), storage hashers and SCALE encoding.
- `pallet-chainlink`, the node, the runtimes, the demos, the Go and JavaScript code.
