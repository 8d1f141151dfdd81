/**
 One feed as a value: its configuration, its rounds, its oracles, and the pure
 meaning of every check and mutator of the `Feed` proxy in
 pallet-chainlink-feed/src/lib.rs. Module `FeedProxy` updates storage in place and
 is proved against these functions.
 */
module Feeds {
  import opened Types
  import opened Medians

  datatype FeedState = FeedState(
    config: FeedConfig,
    rounds: map<RoundId, Round>,
    details: map<RoundId, RoundDetails>,
    statuses: map<AccountId, OracleStatus>,
    requesters: map<AccountId, Requester>,
    history: History)

  // --- checks ---

  predicate IsTimedOut(rt: Runtime, f: FeedState, now: BlockNumber, r: RoundId) {
    var startedAt := if r in f.rounds then f.rounds[r].startedAt else 0;
    var timeout := if r in f.details then f.details[r].timeout else 0;
    startedAt > 0 && timeout > 0 && SaturatingAdd(startedAt, timeout, rt.blockMax) < now
  }

  predicate WasUpdated(f: FeedState, r: RoundId) {
    r in f.rounds && f.rounds[r].updatedAt.Some?
  }

  predicate IsSupersedable(rt: Runtime, f: FeedState, now: BlockNumber, r: RoundId) {
    r == 0 || WasUpdated(f, r) || IsTimedOut(rt, f, now, r)
  }

  function EnsureValidRound(rt: Runtime, f: FeedState, now: BlockNumber, oracle: AccountId, r: RoundId): Result<()> {
    var _ :- Ensure(oracle in f.statuses, NotOracle);
    var o := f.statuses[oracle];
    var _ :- Ensure(o.startingRound <= r, OracleNotEnabled);
    var _ :- Ensure(o.endingRound.Some? ==> o.endingRound.value >= r, OracleDisabled);
    var _ :- Ensure(o.lastReportedRound.Some? ==> o.lastReportedRound.value < r, ReportingOrder);
    var reporting := f.config.reportingRound;
    var currentUnanswered := !WasUpdated(f, reporting);
    var _ :- Ensure(r == reporting || r == Next(reporting) || (Next(r) == reporting && currentUnanswered), InvalidRound);
    var _ :- Ensure(r == 1 || IsSupersedable(rt, f, now, Previous(r)), NotSupersedable);
    Ok(())
  }

  /** The first round the oracle may start again. */
  function NextEligibleRound(f: FeedState, oracle: AccountId): Result<RoundId>
    requires oracle in f.statuses
  {
    var afterDelay := f.statuses[oracle].lastStartedRound.GetOr(0) + f.config.restartDelay;
    var _ :- Ensure(afterDelay <= U32_MAX, Overflow);
    var _ :- Ensure(afterDelay + 1 <= U32_MAX, Overflow);
    Ok(afterDelay + 1)
  }

  // --- reads served to consumers ---

  function ToRoundData(r: Round): Option<RoundData> {
    if r.answeredInRound.None? || r.answer.None? || r.updatedAt.None? then None
    else Some(RoundData(r.startedAt, r.answer.value, r.updatedAt.value, r.answeredInRound.value))
  }

  function IntoRound(d: RoundData): Round {
    Round(d.startedAt, Some(d.answer), Some(d.updatedAt), Some(d.answeredInRound))
  }

  function DataAt(f: FeedState, r: RoundId): Option<RoundData> {
    if r in f.rounds then ToRoundData(f.rounds[r]) else None
  }

  function LatestData(f: FeedState): RoundData {
    DataAt(f, f.config.latestRound).GetOr(RoundData(0, 0, 0, 0))
  }

  // --- opening and closing rounds ---

  function CloseTimedOutRound(f: FeedState, now: BlockNumber, r: RoundId): Result<FeedState> {
    var _ :- Ensure(Previous(r) in f.rounds, RoundNotFound);
    var _ :- Ensure(r in f.rounds, RoundNotFound);
    var prev := f.rounds[Previous(r)];
    var closed := f.rounds[r].(answer := prev.answer, answeredInRound := prev.answeredInRound, updatedAt := Some(now));
    Ok(f.(rounds := f.rounds[r := closed], details := f.details - {r}))
  }

  function OpeningTerms(c: FeedConfig, starter: Starter, now: BlockNumber): Opening {
    Opening(starter, c.restartDelay, c.countBounds, c.payment, c.timeout, now)
  }

  /** Stores fresh round and details for `r`, which becomes the reporting round. */
  function Opened(f: FeedState, now: BlockNumber, r: RoundId, starter: Starter): FeedState {
    f.(config := f.config.(reportingRound := r),
       rounds := f.rounds[r := Round(now, None, None, None)],
       details := f.details[r := RoundDetails([], f.config.countBounds, f.config.payment, f.config.timeout)],
       history := f.history.(openings := f.history.openings[r := OpeningTerms(f.config, starter, now)]))
  }

  function InitializeRound(rt: Runtime, f: FeedState, now: BlockNumber, r: RoundId, starter: Starter): Result<FeedState> {
    var closed :- if IsTimedOut(rt, f, now, Previous(r)) then CloseTimedOutRound(f, now, Previous(r)) else Ok(f);
    Ok(Opened(closed, now, r, starter))
  }

  /** `Feed::request_new_round`. */
  function RequestRound(rt: Runtime, f: FeedState, now: BlockNumber, requester: AccountId): Result<FeedState> {
    var reporting := f.config.reportingRound;
    var _ :- Ensure(reporting < U32_MAX, Overflow);
    var _ :- Ensure(IsSupersedable(rt, f, now, reporting), RoundNotSupersedable);
    InitializeRound(rt, f, now, reporting + 1, ByRequest(requester))
  }

  function MarkStarted(f: FeedState, oracle: AccountId, r: RoundId): FeedState
    requires oracle in f.statuses
  {
    f.(statuses := f.statuses[oracle := f.statuses[oracle].(lastStartedRound := Some(r))])
  }

  predicate MayStart(f: FeedState, oracle: AccountId, r: RoundId)
    requires oracle in f.statuses
  {
    var next := NextEligibleRound(f, oracle);
    next.Ok? && r == Next(f.config.reportingRound)
    && (r >= next.value || f.statuses[oracle].lastStartedRound.None?)
  }

  /** The part of `submit` that opens round `r` when the oracle is entitled to. */
  function OpenIfEligible(rt: Runtime, f: FeedState, now: BlockNumber, oracle: AccountId, r: RoundId): Result<FeedState>
    requires oracle in f.statuses
  {
    var _ :- NextEligibleRound(f, oracle);
    if MayStart(f, oracle, r) then
      var begun :- InitializeRound(rt, f, now, r, ByOracle(oracle));
      Ok(MarkStarted(begun, oracle, r))
    else Ok(f)
  }

  // --- submissions ---

  function PruneOldest(f: FeedState): FeedState {
    var c := f.config;
    if SaturatingSub(c.latestRound, c.nextRoundToPrune) >= c.pruningWindow then
      f.(config := c.(nextRoundToPrune := c.nextRoundToPrune + 1, firstValidRound := Some(c.nextRoundToPrune + 1)),
         rounds := f.rounds - {c.nextRoundToPrune},
         details := f.details - {c.nextRoundToPrune})
    else f
  }

  /** Notes the submission in the oracle's status and, below the maximum, in the round's details. */
  function Recorded(f: FeedState, now: BlockNumber, oracle: AccountId, r: RoundId, value: Value, submissions: seq<Value>): FeedState
    requires oracle in f.statuses && r in f.details
  {
    var d := f.details[r].(submissions := submissions);
    f.(details := if |submissions| < d.countBounds.max then f.details[r := d] else f.details - {r},
       statuses := f.statuses[oracle := f.statuses[oracle].(lastReportedRound := Some(r), latestSubmission := Some(value))],
       history := f.history.(accepted := f.history.accepted + [Submission(oracle, r, value, now)]))
  }

  /** Publishes `answer` for round `r` and closes the previous round to submissions. */
  function Answer(f: FeedState, now: BlockNumber, r: RoundId, answer: Value): FeedState
    requires r in f.rounds
  {
    var c := f.config;
    f.(rounds := f.rounds[r := IntoRound(RoundData(f.rounds[r].startedAt, answer, now, r))],
       config := c.(latestRound := r, firstValidRound := if c.firstValidRound.None? then Some(r) else c.firstValidRound),
       details := if Previous(r) > 0 then f.details - {Previous(r)} else f.details)
  }

  /** Records a submission; from the minimum count on, answers the round and prunes the oldest one. */
  function Accept(rt: Runtime, f: FeedState, now: BlockNumber, oracle: AccountId, r: RoundId, value: Value): Result<FeedState>
    requires oracle in f.statuses
  {
    var _ :- Ensure(r in f.details, NotAcceptingSubmissions);
    var submissions := f.details[r].submissions + [value];
    if |submissions| < f.details[r].countBounds.min then Ok(Recorded(f, now, oracle, r, value, submissions))
    else
      var _ :- Ensure(r in f.rounds, RoundNotFound);
      Ok(PruneOldest(Answer(Recorded(f, now, oracle, r, value, Sort(submissions)), now, r, Median(submissions, rt.valueMax))))
  }

  function SubmitToFeed(rt: Runtime, f: FeedState, now: BlockNumber, oracle: AccountId, r: RoundId, value: Value): Result<(FeedState, Balance)> {
    var _ :- Ensure(oracle in f.statuses, NotOracle);
    var _ :- EnsureValidRound(rt, f, now, oracle, r);
    var _ :- Ensure(value >= f.config.minValue, SubmissionBelowMinimum);
    var _ :- Ensure(value <= f.config.maxValue, SubmissionAboveMaximum);
    var begun :- OpenIfEligible(rt, f, now, oracle, r);
    var accepted :- Accept(rt, begun, now, oracle, r, value);
    Ok((accepted, begun.details[r].payment))
  }

  // --- configuration ---

  function Outside<V>(m: map<RoundId, V>, lo: RoundId, hi: RoundId): map<RoundId, V> {
    map r | r in m && !(lo <= r < hi) :: m[r]
  }

  /** Where pruning to the configured window stops. */
  function PruneTarget(c: FeedConfig): RoundId {
    if SaturatingSub(c.latestRound, c.nextRoundToPrune) >= c.pruningWindow then c.latestRound - c.pruningWindow + 1
    else c.nextRoundToPrune
  }

  /** Everything from the oldest round up to `target` goes. */
  function PrunedTo(f: FeedState, target: RoundId): FeedState {
    var c := f.config;
    f.(config := c.(nextRoundToPrune := target,
                    firstValidRound := if target == c.nextRoundToPrune then c.firstValidRound else Some(target)),
       rounds := Outside(f.rounds, c.nextRoundToPrune, target),
       details := Outside(f.details, c.nextRoundToPrune, target))
  }

  /** What pruning amounts to once it no longer finds a round outside the window. */
  function PrunedToWindow(f: FeedState): FeedState {
    PrunedTo(f, PruneTarget(f.config))
  }

  function UpdateFutureRounds(
    f: FeedState, payment: Balance, bounds: CountBounds, restartDelay: RoundId, timeout: BlockNumber
  ): Result<FeedState> {
    var _ :- Ensure(bounds.max >= bounds.min, WrongBounds);
    var _ :- Ensure(f.config.oracleCount >= bounds.max, MaxExceededTotal);
    var _ :- Ensure(f.config.oracleCount > restartDelay, DelayNotBelowCount);
    var _ :- Ensure(f.config.oracleCount > 0 ==> bounds.min > 0, WrongBounds);
    Ok(f.(config := f.config.(payment := payment, countBounds := bounds, restartDelay := restartDelay, timeout := timeout)))
  }

  // --- oracles ---

  predicate Enabled(status: OracleStatus) {
    status.endingRound.None?
  }

  function EnableOne(
    statuses: map<AccountId, OracleStatus>, oracles: map<AccountId, OracleMeta>,
    reporting: RoundId, oracle: AccountId, admin: AccountId
  ): Result<(map<AccountId, OracleStatus>, map<AccountId, OracleMeta>)> {
    var _ :- Ensure(oracle in oracles ==> oracles[oracle].admin == admin, OwnerCannotChangeAdmin);
    var _ :- Ensure(oracle in statuses ==> !Enabled(statuses[oracle]), AlreadyEnabled);
    var status :=
      if oracle in statuses then statuses[oracle].(startingRound := reporting, endingRound := None)
      else OracleStatus(reporting, None, None, None, None);
    Ok((statuses[oracle := status], if oracle in oracles then oracles else oracles[oracle := OracleMeta(0, admin)]))
  }

  function EnableEach(
    statuses: map<AccountId, OracleStatus>, oracles: map<AccountId, OracleMeta>,
    reporting: RoundId, toAdd: seq<(AccountId, AccountId)>
  ): Result<(map<AccountId, OracleStatus>, map<AccountId, OracleMeta>)>
    decreases |toAdd|
  {
    if toAdd == [] then Ok((statuses, oracles))
    else
      var (s, o) :- EnableOne(statuses, oracles, reporting, toAdd[0].0, toAdd[0].1);
      EnableEach(s, o, reporting, toAdd[1..])
  }

  function AddOracles(rt: Runtime, f: FeedState, oracles: map<AccountId, OracleMeta>, toAdd: OracleList)
    : Result<(FeedState, map<AccountId, OracleMeta>)>
  {
    var newCount := SaturatingAdd(f.config.oracleCount, |toAdd|, U32_MAX);
    var _ :- Ensure(newCount <= rt.oracleCountLimit, OraclesLimitExceeded);
    var (s, o) :- EnableEach(f.statuses, oracles, f.config.reportingRound, toAdd);
    Ok((f.(config := f.config.(oracleCount := newCount), statuses := s), o))
  }

  function DisableOne(statuses: map<AccountId, OracleStatus>, reporting: RoundId, oracle: AccountId)
    : Result<map<AccountId, OracleStatus>>
  {
    var _ :- Ensure(oracle in statuses, OracleNotFound);
    var _ :- Ensure(Enabled(statuses[oracle]), OracleDisabled);
    Ok(statuses[oracle := statuses[oracle].(endingRound := Some(reporting))])
  }

  function DisableEach(statuses: map<AccountId, OracleStatus>, reporting: RoundId, toDisable: seq<AccountId>)
    : Result<map<AccountId, OracleStatus>>
    decreases |toDisable|
  {
    if toDisable == [] then Ok(statuses)
    else
      var s :- DisableOne(statuses, reporting, toDisable[0]);
      DisableEach(s, reporting, toDisable[1..])
  }

  function DisableOracles(f: FeedState, toDisable: AccountList): Result<FeedState> {
    var _ :- Ensure(|toDisable| <= f.config.oracleCount, NotEnoughOracles);
    var s :- DisableEach(f.statuses, f.config.reportingRound, toDisable);
    Ok(f.(config := f.config.(oracleCount := f.config.oracleCount - |toDisable|), statuses := s))
  }
}
