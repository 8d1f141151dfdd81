/** Concrete runs and states that mark the edges of the guarantees. */
module Examples {
  import opened Types
  import opened Medians
  import opened Feeds
  import opened FeedInvariant
  import opened FeedSteps
  import opened Pallets
  import opened Runs
  import opened Consumers
  import opened Money
  import opened Stalls

  const RT: Runtime := Runtime(1000, 1000, 1000, 10, 0, 10, 10, 10, 99)
  const GENESIS: State := Genesis(1, {1}, 50, 1)
  const CREATE: Call := CreateFeed(1, 1, 1, 0, 100, 1, 0, 0, [(2, 2), (3, 3)], Some(1), None)
  const IDLE: OracleStatus := OracleStatus(0, None, None, None, None)
  const SEED: Round := Round(1, Some(0), Some(1), Some(0))
  const BOUNDS: CountBounds := CountBounds(1, 2)
  const TERMS: Opening := Opening(ByOracle(2), 0, BOUNDS, 1, 1, 1)

  function ConfigWith(reporting: RoundId, latest: RoundId, firstValid: Option<RoundId>, oldest: RoundId): FeedConfig {
    FeedConfig(1, 0, 100, BOUNDS, 1, 1, 0, reporting, latest, firstValid, 2, 1, oldest, 0, None)
  }

  // --- a pruning window of one: two answered rounds, then a timeout ---

  const FRESH: FeedState := FeedState(
    ConfigWith(0, 0, None, 1), map[0 := SEED], map[], map[2 := IDLE, 3 := IDLE], map[], History(map[], []))

  const ANSWERED_ONCE: FeedState := FeedState(
    ConfigWith(1, 1, Some(1), 1),
    map[0 := SEED, 1 := Round(1, Some(7), Some(1), Some(1))],
    map[1 := RoundDetails([7], BOUNDS, 1, 1)],
    map[2 := OracleStatus(0, None, Some(1), Some(1), Some(7)), 3 := IDLE],
    map[],
    History(map[1 := TERMS], [Submission(2, 1, 7, 1)]))

  const ANSWERED_TWICE: FeedState := FeedState(
    ConfigWith(2, 2, Some(2), 2),
    map[0 := SEED, 2 := Round(1, Some(8), Some(1), Some(2))],
    map[2 := RoundDetails([8], BOUNDS, 1, 1)],
    map[2 := OracleStatus(0, None, Some(2), Some(2), Some(8)), 3 := IDLE],
    map[],
    History(map[1 := TERMS, 2 := TERMS], [Submission(2, 1, 7, 1), Submission(2, 2, 8, 1)]))

  /** The pallet with feed `f` only, of which oracle 2 has earned something. */
  function StateWith(f: FeedState, earned: Balance, now: BlockNumber): State
    requires earned <= 50
  {
    State(1, {1}, 1, map[0 := f], map[2 := OracleMeta(earned, 2), 3 := OracleMeta(0, 3)], Fund(50 - earned, earned), now,
          Ledger(map[], 0))
  }

  lemma Creation()
    ensures Step(RT, GENESIS, CREATE).state == StateWith(FRESH, 0, 1)
  {
  }

  const OPENED_ONCE: FeedState := FeedState(
    ConfigWith(1, 0, None, 1),
    map[0 := SEED, 1 := Round(1, None, None, None)],
    map[1 := RoundDetails([], BOUNDS, 1, 1)],
    map[2 := IDLE.(lastStartedRound := Some(1)), 3 := IDLE],
    map[],
    History(map[1 := TERMS], []))

  lemma FirstOpening()
    ensures EnsureValidRound(RT, FRESH, 1, 2, 1).Ok?
    ensures OpenIfEligible(RT, FRESH, 1, 2, 1) == Ok(OPENED_ONCE)
  {
    var r := OpenIfEligible(RT, FRESH, 1, 2, 1);
    assert r.Ok?;
    assert r.value.rounds == OPENED_ONCE.rounds;
    assert r.value.details == OPENED_ONCE.details;
    assert r.value.statuses == OPENED_ONCE.statuses;
    assert r.value.history == OPENED_ONCE.history;
  }

  lemma FirstAcceptance()
    ensures Accept(RT, OPENED_ONCE, 1, 2, 1, 7) == Ok(ANSWERED_ONCE)
  {
    assert Median([7], 1000) == 7;
    var g := Accept(RT, OPENED_ONCE, 1, 2, 1, 7);
    assert g.Ok?;
    assert g.value.rounds == ANSWERED_ONCE.rounds;
    assert g.value.details == ANSWERED_ONCE.details;
    assert g.value.statuses == ANSWERED_ONCE.statuses;
    assert g.value.history == ANSWERED_ONCE.history;
    assert g.value.config == ANSWERED_ONCE.config;
  }

  lemma FirstAnswer()
    ensures SubmitToFeed(RT, FRESH, 1, 2, 1, 7) == Ok((ANSWERED_ONCE, 1))
  {
    hide EnsureValidRound, OpenIfEligible, Accept;
    FirstOpening();
    FirstAcceptance();
  }

  const OPENED_TWICE: FeedState := FeedState(
    ConfigWith(2, 1, Some(1), 1),
    map[0 := SEED, 1 := Round(1, Some(7), Some(1), Some(1)), 2 := Round(1, None, None, None)],
    map[1 := RoundDetails([7], BOUNDS, 1, 1), 2 := RoundDetails([], BOUNDS, 1, 1)],
    map[2 := OracleStatus(0, None, Some(1), Some(2), Some(7)), 3 := IDLE],
    map[],
    History(map[1 := TERMS, 2 := TERMS], [Submission(2, 1, 7, 1)]))

  lemma SecondOpening()
    ensures EnsureValidRound(RT, ANSWERED_ONCE, 1, 2, 2).Ok?
    ensures OpenIfEligible(RT, ANSWERED_ONCE, 1, 2, 2) == Ok(OPENED_TWICE)
  {
    var r := OpenIfEligible(RT, ANSWERED_ONCE, 1, 2, 2);
    assert r.Ok?;
    assert r.value.rounds == OPENED_TWICE.rounds;
    assert r.value.details == OPENED_TWICE.details;
    assert r.value.statuses == OPENED_TWICE.statuses;
    assert r.value.history == OPENED_TWICE.history;
  }

  lemma SecondAcceptance()
    ensures Accept(RT, OPENED_TWICE, 1, 2, 2, 8) == Ok(ANSWERED_TWICE)
  {
    assert Median([8], 1000) == 8;
    var g := Accept(RT, OPENED_TWICE, 1, 2, 2, 8);
    assert g.Ok?;
    assert g.value.rounds == ANSWERED_TWICE.rounds;
    assert g.value.details == ANSWERED_TWICE.details;
    assert g.value.statuses == ANSWERED_TWICE.statuses;
    assert g.value.history == ANSWERED_TWICE.history;
    assert g.value.config == ANSWERED_TWICE.config;
  }

  lemma SecondAnswer()
    ensures SubmitToFeed(RT, ANSWERED_ONCE, 1, 2, 2, 8) == Ok((ANSWERED_TWICE, 1))
  {
    hide EnsureValidRound, OpenIfEligible, Accept;
    SecondOpening();
    SecondAcceptance();
  }

  lemma PaidSubmission(f: FeedState, g: FeedState, round: RoundId, value: Value, earned: Balance, now: BlockNumber)
    requires earned < 50 && SubmitToFeed(RT, f, now, 2, round, value) == Ok((g, 1))
    requires f.config.reportingRound < U32_MAX && Reachable(RT, StateWith(f, earned, now))
    ensures Step(RT, StateWith(f, earned, now), Submit(2, 0, round, value, false)).state == StateWith(g, earned + 1, now)
    ensures Reachable(RT, StateWith(g, earned + 1, now))
  {
    hide SubmitToFeed, Reachable;
    var s' := SubmitStep(RT, StateWith(f, earned, now), Submit(2, 0, round, value, false)).value;
    assert s'.feeds == StateWith(g, earned + 1, now).feeds;
    assert s'.oracles == StateWith(g, earned + 1, now).oracles;
    ReachableThen(RT, StateWith(f, earned, now), Submit(2, 0, round, value, false));
  }

  lemma TimePasses(f: FeedState, earned: Balance, now: BlockNumber, later: BlockNumber)
    requires earned <= 50 && now <= later && Reachable(RT, StateWith(f, earned, now))
    ensures Reachable(RT, StateWith(f, earned, later))
  {
    hide Reachable;
    ReachableThen(RT, StateWith(f, earned, now), BlockProduced(later));
  }

  lemma Requested(f: FeedState, g: FeedState, earned: Balance, now: BlockNumber)
    requires earned <= 50 && RequestRound(RT, f, now, 5) == Ok(g) && Reachable(RT, StateWith(f, earned, now))
    ensures Step(RT, StateWith(f, earned, now), VIA) == Outcome(StateWith(g, earned, now), Ok(()))
    ensures Reachable(RT, StateWith(g, earned, now))
  {
    hide Reachable, RequestRound;
    assert StateWith(f, earned, now).feeds[0 := g] == StateWith(g, earned, now).feeds;
    ReachableThen(RT, StateWith(f, earned, now), VIA);
  }

  const VIA: Call := RequestVia(5, 0)

  lemma FreshIsReachable()
    ensures Reachable(RT, StateWith(FRESH, 0, 1))
  {
    hide Reachable;
    GenesisIsReachable(RT, 1, {1}, 50, 1);
    ReachableThen(RT, GENESIS, CREATE);
    Creation();
  }

  lemma AnsweredOnceIsReachable()
    ensures Reachable(RT, StateWith(ANSWERED_ONCE, 1, 1))
  {
    hide Reachable, SubmitToFeed;
    FreshIsReachable();
    FirstAnswer();
    PaidSubmission(FRESH, ANSWERED_ONCE, 1, 7, 0, 1);
  }

  /** With a window of one, an answered round that times out below its maximum stalls its feed. */
  lemma WindowOfOneStalls()
    ensures Reachable(RT, StateWith(ANSWERED_TWICE, 2, 9)) && Stalled(RT, ANSWERED_TWICE, 9)
  {
    assert Stalled(RT, ANSWERED_TWICE, 9);
    hide Reachable, SubmitToFeed, Stalled;
    AnsweredOnceIsReachable();
    SecondAnswer();
    PaidSubmission(ANSWERED_ONCE, ANSWERED_TWICE, 2, 8, 1, 1);
    TimePasses(ANSWERED_TWICE, 2, 1, 9);
  }

  // --- a timeout that takes an answer away ---

  const BY_REQUEST: Opening := Opening(ByRequest(5), 0, BOUNDS, 1, 1, 1)

  const OVERWRITTEN: FeedState := FeedState(
    ConfigWith(2, 1, Some(1), 1),
    map[0 := SEED, 1 := Round(1, Some(0), Some(9), Some(0)), 2 := Round(9, None, None, None)],
    map[2 := RoundDetails([], BOUNDS, 1, 1)],
    map[2 := OracleStatus(0, None, Some(1), Some(1), Some(7)), 3 := IDLE],
    map[],
    History(map[1 := TERMS, 2 := BY_REQUEST.(openedAt := 9)], [Submission(2, 1, 7, 1)]))

  lemma Overwriting()
    ensures RequestRound(RT, ANSWERED_ONCE, 9, 5) == Ok(OVERWRITTEN)
  {
    var g := RequestRound(RT, ANSWERED_ONCE, 9, 5);
    assert g.Ok?;
    assert g.value.rounds == OVERWRITTEN.rounds && g.value.details == OVERWRITTEN.details;
    assert g.value.history == OVERWRITTEN.history;
  }

  /**
   Without any pruning: round 1 is answered with 7 and becomes the first valid and the latest round. When it
   has timed out and a round is requested, both still name it, and it has the seed.
   */
  lemma TimeoutTakesAnswerAway()
    ensures var before, after := StateWith(ANSWERED_ONCE, 1, 9), StateWith(OVERWRITTEN, 1, 9);
            && Reachable(RT, before) && Step(RT, before, VIA) == Outcome(after, Ok(())) && Reachable(RT, after)
    ensures forall f :: f == ANSWERED_ONCE || f == OVERWRITTEN ==>
              f.config.firstValidRound == Some(1) && f.config.latestRound == 1 && f.config.nextRoundToPrune == 1
    ensures LatestData(ANSWERED_ONCE) == DataAt(ANSWERED_ONCE, 1).value == RoundData(1, 7, 1, 1)
    ensures LatestData(OVERWRITTEN) == DataAt(OVERWRITTEN, 1).value == RoundData(1, 0, 9, 0)
  {
    hide Reachable, RequestRound;
    AnsweredOnceIsReachable();
    TimePasses(ANSWERED_ONCE, 1, 1, 9);
    Overwriting();
    Requested(ANSWERED_ONCE, OVERWRITTEN, 1, 9);
  }

  // --- pruning up to a round with default data ---

  const ONE_OPEN: FeedState := FRESH.(
    config := ConfigWith(1, 0, None, 1),
    rounds := map[0 := SEED, 1 := Round(1, None, None, None)],
    details := map[1 := RoundDetails([], BOUNDS, 1, 1)],
    history := History(map[1 := BY_REQUEST], []))

  const TWO_OPEN: FeedState := FRESH.(
    config := ConfigWith(2, 0, None, 1),
    rounds := map[0 := SEED, 1 := Round(1, Some(0), Some(9), Some(0)), 2 := Round(9, None, None, None)],
    details := map[2 := RoundDetails([], BOUNDS, 1, 1)],
    history := History(map[1 := BY_REQUEST, 2 := BY_REQUEST.(openedAt := 9)], []))

  const THREE_HISTORY: History := History(
    map[1 := BY_REQUEST, 2 := BY_REQUEST.(openedAt := 9), 3 := TERMS.(openedAt := 20)], [])

  const THREE_OPEN: FeedState := FeedState(
    ConfigWith(3, 0, None, 1),
    map[0 := SEED, 1 := Round(1, Some(0), Some(9), Some(0)), 2 := Round(9, Some(0), Some(20), Some(0)),
        3 := Round(20, None, None, None)],
    map[3 := RoundDetails([], BOUNDS, 1, 1)],
    map[2 := IDLE.(lastStartedRound := Some(3)), 3 := IDLE],
    map[],
    THREE_HISTORY)

  const PRUNED: FeedState := FeedState(
    ConfigWith(3, 3, Some(2), 2),
    map[0 := SEED, 2 := Round(9, Some(0), Some(20), Some(0)), 3 := Round(20, Some(7), Some(20), Some(3))],
    map[3 := RoundDetails([7], BOUNDS, 1, 1)],
    map[2 := OracleStatus(0, None, Some(3), Some(3), Some(7)), 3 := IDLE],
    map[],
    THREE_HISTORY.(accepted := [Submission(2, 3, 7, 20)]))

  lemma RequestedRounds()
    ensures RequestRound(RT, FRESH, 1, 5) == Ok(ONE_OPEN)
    ensures RequestRound(RT, ONE_OPEN, 9, 5) == Ok(TWO_OPEN)
  {
    var g, h := RequestRound(RT, FRESH, 1, 5), RequestRound(RT, ONE_OPEN, 9, 5);
    assert g.Ok? && h.Ok?;
    assert g.value.details == ONE_OPEN.details && g.value.history == ONE_OPEN.history;
    assert h.value.rounds == TWO_OPEN.rounds && h.value.details == TWO_OPEN.details;
    assert h.value.history == TWO_OPEN.history;
  }

  lemma ThirdOpening()
    ensures EnsureValidRound(RT, TWO_OPEN, 20, 2, 3).Ok?
    ensures OpenIfEligible(RT, TWO_OPEN, 20, 2, 3) == Ok(THREE_OPEN)
  {
    var r := OpenIfEligible(RT, TWO_OPEN, 20, 2, 3);
    assert r.Ok?;
    assert r.value.rounds == THREE_OPEN.rounds;
    assert r.value.details == THREE_OPEN.details;
    assert r.value.history == THREE_OPEN.history;
    assert r.value.statuses == THREE_OPEN.statuses;
    assert r.value.config == THREE_OPEN.config;
  }

  lemma ThirdAcceptance()
    ensures Accept(RT, THREE_OPEN, 20, 2, 3, 7) == Ok(PRUNED)
  {
    assert Median([7], 1000) == 7;
    var g := Accept(RT, THREE_OPEN, 20, 2, 3, 7);
    assert g.Ok?;
    assert g.value.rounds == PRUNED.rounds;
    assert g.value.details == PRUNED.details;
    assert g.value.statuses == PRUNED.statuses;
    assert g.value.history == PRUNED.history;
    assert g.value.config == PRUNED.config;
  }

  lemma ThirdAnswer()
    ensures SubmitToFeed(RT, TWO_OPEN, 20, 2, 3, 7) == Ok((PRUNED, 1))
  {
    hide EnsureValidRound, OpenIfEligible, Accept;
    ThirdOpening();
    ThirdAcceptance();
  }

  lemma TwoOpenIsReachable()
    ensures Reachable(RT, StateWith(TWO_OPEN, 0, 20))
  {
    hide Reachable, RequestRound;
    FreshIsReachable();
    RequestedRounds();
    Requested(FRESH, ONE_OPEN, 0, 1);
    TimePasses(ONE_OPEN, 0, 1, 9);
    Requested(ONE_OPEN, TWO_OPEN, 0, 9);
    TimePasses(TWO_OPEN, 0, 9, 20);
  }

  lemma PrunedIsReachable()
    ensures Reachable(RT, StateWith(PRUNED, 1, 20))
  {
    hide Reachable, SubmitToFeed;
    TwoOpenIsReachable();
    ThirdAnswer();
    PaidSubmission(TWO_OPEN, PRUNED, 3, 7, 0, 20);
  }

  /** Pruning makes the oldest stored round the first valid one, although it timed out without any submission. */
  lemma PruningUncoversDefault()
    ensures Reachable(RT, StateWith(PRUNED, 1, 20))
    ensures PRUNED.config.firstValidRound == Some(2) && DataAt(PRUNED, 2) == Some(RoundData(9, 0, 20, 0))
    ensures LatestData(PRUNED) == RoundData(20, 7, 20, 3)
  {
    hide Reachable;
    PrunedIsReachable();
  }

  /** The answer of round 3, two above the oldest, leaves more rounds than the window of one. */
  lemma SkippingExceedsWindow()
    ensures Reachable(RT, StateWith(TWO_OPEN, 0, 20)) && WithinWindow(TWO_OPEN.config)
    ensures Reachable(RT, StateWith(PRUNED, 1, 20)) && !WithinWindow(PRUNED.config)
    ensures Step(RT, StateWith(TWO_OPEN, 0, 20), Submit(2, 0, 3, 7, false)).state == StateWith(PRUNED, 1, 20)
  {
    hide Reachable, SubmitToFeed, Step;
    TwoOpenIsReachable();
    ThirdAnswer();
    PaidSubmission(TWO_OPEN, PRUNED, 3, 7, 0, 20);
  }

  // --- debt without a limit ---

  const EMPTIED: State := StateWith(ANSWERED_ONCE, 1, 1).(fund := Fund(0, 1))
  const INDEBTED: State := StateWith(ANSWERED_TWICE.(config := ANSWERED_TWICE.config.(debt := 1)), 1, 1).(
    fund := Fund(0, 1), oracles := map[2 := OracleMeta(2, 2), 3 := OracleMeta(0, 3)])

  lemma EmptiedIsReachable()
    ensures Reachable(RT, EMPTIED)
  {
    hide Reachable;
    var s, c := StateWith(ANSWERED_ONCE, 1, 1), WithdrawFunds(1, 7, 49, false);
    AnsweredOnceIsReachable();
    FundsWithdrawalIff(RT, s, c);
    ReachableThen(RT, s, c);
    assert Step(RT, s, c).state == EMPTIED;
  }

  /** A feed without a debt limit goes into debt as soon as the fund is empty. */
  lemma NoLimitAllowsDebt()
    ensures Reachable(RT, EMPTIED) && EMPTIED.feeds[0].config.maxDebt.None? && EMPTIED.feeds[0].config.debt == 0
    ensures Step(RT, EMPTIED, Submit(2, 0, 2, 8, false)) == Outcome(INDEBTED, Ok(()))
    ensures INDEBTED.feeds[0].config.debt == 1 && INDEBTED.oracles[2].withdrawable == 2 && INDEBTED.fund.reserved == 1
  {
    hide Reachable, SubmitToFeed;
    EmptiedIsReachable();
    SecondAnswer();
    var s' := SubmitStep(RT, EMPTIED, Submit(2, 0, 2, 8, false)).value;
    assert s'.feeds == INDEBTED.feeds;
    assert s'.oracles == INDEBTED.oracles;
  }

  // --- a refused payout ---

  /** After one refused payout the oracle is still owed its balance, but nothing is reserved for it. */
  lemma RefusedPayoutLosesReserve()
    ensures Reachable(RT, StateWith(ANSWERED_ONCE, 1, 1))
    ensures var s := Step(RT, StateWith(ANSWERED_ONCE, 1, 1), WithdrawPayment(2, 2, 5, 1, true)).state;
            && s.oracles[2].withdrawable == 1 && s.fund.reserved == 0 && s.feeds[0].config.debt == 0
            && Step(RT, s, WithdrawPayment(2, 2, 5, 1, false)).result == Err(InsufficientReserve)
  {
    hide Reachable;
    AnsweredOnceIsReachable();
  }

  // --- a restart delay that the remaining oracles cannot meet ---

  /** Disabling oracles does not revisit the delay, and can leave nobody entitled to start a round. */
  lemma DisablingCanBlockStarts()
    ensures Reachable(RT, StateWith(ANSWERED_ONCE, 1, 1))
    ensures var delayed := Step(RT, StateWith(ANSWERED_ONCE, 1, 1), UpdateRounds(1, 0, 1, BOUNDS, 1, 1));
            var reduced := Step(RT, delayed.state, ChangeOracles(1, 0, [3], []));
            && delayed.result.Ok? && reduced.result.Ok?
            && var f := reduced.state.feeds[0];
               && f.config.oracleCount == 1
               && IsSupersedable(RT, f, reduced.state.now, f.config.reportingRound)
               && forall o :: o in EnabledOracles(f.statuses) ==> !MayStart(f, o, 2)
  {
    hide Reachable;
    AnsweredOnceIsReachable();
    var s := Step(RT, StateWith(ANSWERED_ONCE, 1, 1), UpdateRounds(1, 0, 1, BOUNDS, 1, 1)).state;
    var g := s.feeds[0];
    assert DisableEach(g.statuses, 1, [3]) == DisableEach(g.statuses[3 := IDLE.(endingRound := Some(1))], 1, []);
    assert EnabledOracles(g.statuses[3 := IDLE.(endingRound := Some(1))]) == {2};
  }

  // --- the last round id ---

  lemma Reopening(rt: Runtime, f: FeedState, now: BlockNumber, oracle: AccountId, r: RoundId)
    requires Reopens(f, oracle, r) && OpenIfEligible(rt, f, now, oracle, r).Ok?
    ensures var g := OpenIfEligible(rt, f, now, oracle, r).value;
            && r == U32_MAX && oracle in g.statuses && r in g.rounds && g.rounds[r] == Round(now, None, None, None)
            && r in g.details && g.details[r].submissions == [] && g.details[r].countBounds == f.config.countBounds
            && g.history.accepted == f.history.accepted && g.config.latestRound == f.config.latestRound
  {
  }

  /** At the last round id a submission may open the round again, which erases its answer below the minimum. */
  lemma LastRoundReopensIff(rt: Runtime, f: FeedState, now: BlockNumber, oracle: AccountId, r: RoundId, value: Value)
    requires f.config.latestRound == U32_MAX
    requires SubmitToFeed(rt, f, now, oracle, r, value).Ok? && Reopens(f, oracle, r)
    ensures var g := SubmitToFeed(rt, f, now, oracle, r, value).value.0;
            DataAt(g, g.config.latestRound).Some? <==> f.config.countBounds.min <= 1
  {
    Reopening(rt, f, now, oracle, r);
    hide OpenIfEligible, EnsureValidRound, MayStart;
  }

  lemma FirstSubmission(rt: Runtime, f: FeedState, now: BlockNumber, oracle: AccountId, r: RoundId, value: Value)
    requires oracle in f.statuses && r in f.details && f.details[r].submissions == []
    requires Accept(rt, f, now, oracle, r, value).Ok?
    ensures var g := Accept(rt, f, now, oracle, r, value).value;
            && (r in g.details <==> f.details[r].countBounds.max > 1)
            && (r in g.details ==> g.details[r].submissions == [value])
            && g.history.accepted == f.history.accepted + [Submission(oracle, r, value, now)]
  {
    assert Sort([value]) == [value];
    hide Sort, Median;
  }

  /** Whether answered or not, it forgets every submission accepted before, so it is harmless only if there was none. */
  lemma LastRoundForgetsIff(rt: Runtime, f: FeedState, now: BlockNumber, oracle: AccountId, r: RoundId, value: Value)
    requires SubmitToFeed(rt, f, now, oracle, r, value).Ok? && Reopens(f, oracle, r)
    ensures var g := SubmitToFeed(rt, f, now, oracle, r, value).value.0;
            && (r in g.details <==> f.config.countBounds.max > 1)
            && (r in g.details ==>
                  && g.details[r].submissions == [value]
                  && (multiset(g.details[r].submissions) == multiset(ValuesOf(g.history.accepted, r))
                      <==> ValuesOf(f.history.accepted, r) == []))
  {
    hide OpenIfEligible, EnsureValidRound, MayStart, Accept;
    Reopening(rt, f, now, oracle, r);
    var begun := OpenIfEligible(rt, f, now, oracle, r).value;
    FirstSubmission(rt, begun, now, oracle, r, value);
    ValuesAppend(f.history.accepted, Submission(oracle, r, value, now), r);
    var earlier := ValuesOf(f.history.accepted, r);
    assert |multiset(earlier + [value])| == |earlier| + 1;
  }
}
