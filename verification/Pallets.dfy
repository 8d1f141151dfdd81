/**
 The whole pallet as a value: all feeds, the oracles' balances, the fund account,
 and the meaning of every extrinsic as one step. Module `Extrinsics` performs the
 same steps in place.
 */
module Pallets {
  import opened Types
  import opened Feeds

  /** The fund account, as far as the pallet can see it. */
  datatype Fund = Fund(free: Balance, reserved: Balance)

  /** What left the books: payments made for each oracle, and reserves lost to refused transfers. */
  datatype Ledger = Ledger(paid: map<AccountId, Balance>, released: Balance)

  datatype State = State(
    palletAdmin: AccountId,
    feedCreators: set<AccountId>,
    feedCounter: FeedId,
    feeds: map<FeedId, FeedState>,
    oracles: map<AccountId, OracleMeta>,
    fund: Fund,
    now: BlockNumber,
    ledger: Ledger)

  /**
   One dispatched call, or one event of the environment. `refused` stands for the
   currency's own reasons to reject a reservation or a transfer.
   */
  datatype Call =
    | CreateFeed(who: AccountId, payment: Balance, timeout: BlockNumber, minValue: Value, maxValue: Value,
                 minSubmissions: u32, descriptionLength: u32, restartDelay: RoundId, newOracles: OracleList,
                 pruningWindow: Option<RoundId>, maxDebt: Option<Balance>)
    | SetPruningWindow(who: AccountId, id: FeedId, window: RoundId)
    | Submit(who: AccountId, id: FeedId, round: RoundId, value: Value, refused: bool)
    | ChangeOracles(who: AccountId, id: FeedId, toDisable: AccountList, toAdd: OracleList)
    | UpdateRounds(who: AccountId, id: FeedId, payment: Balance, bounds: CountBounds, restartDelay: RoundId,
                   timeout: BlockNumber)
    | SetRequester(who: AccountId, id: FeedId, requester: AccountId, delay: RoundId)
    | RemoveRequester(who: AccountId, id: FeedId, requester: AccountId)
    | RequestNewRound(who: AccountId, id: FeedId)
    | RequestVia(who: AccountId, id: FeedId)  // another pallet, through `feed_mut`
    | WithdrawPayment(who: AccountId, oracle: AccountId, recipient: AccountId, amount: Balance, refused: bool)
    | WithdrawFunds(who: AccountId, recipient: AccountId, amount: Balance, refused: bool)
    | ReduceDebt(who: AccountId, id: FeedId, amount: Balance, refused: bool)
    // completed two-step transfers and permission changes
    | OwnerChanged(id: FeedId, owner: AccountId)
    | AdminChanged(oracle: AccountId, admin: AccountId)
    | PermissionsChanged(admin: AccountId, creators: set<AccountId>)
    // environment
    | FundEndowed(amount: Balance)
    | BlockProduced(number: BlockNumber)

  datatype Outcome = Outcome(state: State, result: Result<()>)

  /** `with_transaction_result`: commit on success, otherwise nothing happened. */
  function Transact(s: State, r: Result<State>): Outcome {
    match r
    case Ok(committed) => Outcome(committed, Ok(()))
    case Err(e) => Outcome(s, Err(e))
  }

  function WithFeed(s: State, id: FeedId, f: FeedState): State {
    s.(feeds := s.feeds[id := f])
  }

  // --- the currency ---

  function Reserve(fund: Fund, amount: Balance, refused: bool): Result<Fund> {
    if refused || fund.free < amount then Err(CurrencyRefused)
    else Ok(Fund(fund.free - amount, fund.reserved + amount))
  }

  function TransferOut(rt: Runtime, fund: Fund, recipient: AccountId, amount: Balance, refused: bool): Result<Fund> {
    if refused || fund.free < amount then Err(CurrencyRefused)
    else if recipient == rt.fundAccount then Ok(fund)
    else Ok(fund.(free := fund.free - amount))
  }

  function PaidTo(l: Ledger, oracle: AccountId): Balance {
    if oracle in l.paid then l.paid[oracle] else 0
  }

  // --- extrinsics ---

  function NewFeedConfig(c: Call, window: Window): FeedConfig
    requires c.CreateFeed?
  {
    FeedConfig(c.who, c.minValue, c.maxValue, CountBounds(c.minSubmissions, |c.newOracles|), c.payment, c.timeout,
               c.restartDelay, 0, 0, None, 0, window, 1, 0, c.maxDebt)
  }

  /** A feed before its oracles are added: only the seed data of round 0. */
  function SeedFeed(config: FeedConfig, now: BlockNumber): FeedState {
    FeedState(config, map[0 := Round(now, Some(0), Some(now), Some(0))], map[], map[], map[], History(map[], []))
  }

  function CreateFeedStep(rt: Runtime, s: State, c: Call): Result<State>
    requires c.CreateFeed?
  {
    var _ :- Ensure(c.who in s.feedCreators, NotFeedCreator);
    var _ :- Ensure(c.descriptionLength <= rt.stringLimit, DescriptionTooLong);
    var window := c.pruningWindow.GetOr(U32_MAX);
    var _ :- Ensure(window > 0, CannotPruneRoundZero);
    var _ :- Ensure(s.feedCounter < rt.feedLimit, FeedLimitReached);
    var _ :- Ensure(s.feedCounter + 1 <= rt.feedIdMax, Overflow);
    var seed := SeedFeed(NewFeedConfig(c, window), s.now);
    var (staffed, oracles) :- AddOracles(rt, seed, s.oracles, c.newOracles);
    var f :- UpdateFutureRounds(staffed, c.payment, CountBounds(c.minSubmissions, |c.newOracles|), c.restartDelay, c.timeout);
    Ok(WithFeed(s, s.feedCounter, f).(feedCounter := s.feedCounter + 1, oracles := oracles))
  }

  function SetPruningWindowStep(s: State, c: Call): Result<State>
    requires c.SetPruningWindow?
  {
    var _ :- Ensure(c.window > 0, CannotPruneRoundZero);
    var _ :- Ensure(c.id in s.feeds, FeedNotFound);
    var f := s.feeds[c.id];
    var _ :- Ensure(f.config.owner == c.who, NotFeedOwner);
    Ok(WithFeed(s, c.id, PrunedToWindow(f.(config := f.config.(pruningWindow := c.window)))))
  }

  /** Adds a payment that could not be reserved to the feed's debt. */
  function Owe(rt: Runtime, config: FeedConfig, payment: Balance): Result<FeedConfig> {
    var newDebt := config.debt + payment;
    var _ :- Ensure(newDebt <= rt.balanceMax, Overflow);
    var _ :- Ensure(config.maxDebt.Some? ==> newDebt <= config.maxDebt.value, MaxDebtReached);
    Ok(config.(debt := newDebt))
  }

  /** Reserves the payment or, failing that, records it as debt of the feed. */
  function FundPayment(rt: Runtime, fund: Fund, config: FeedConfig, payment: Balance, refused: bool): Result<(Fund, FeedConfig)> {
    var reserved := Reserve(fund, payment, refused);
    if reserved.Ok? then Ok((reserved.value, config))
    else
      var owing :- Owe(rt, config, payment);
      Ok((fund, owing))
  }

  function Credit(rt: Runtime, oracles: map<AccountId, OracleMeta>, oracle: AccountId, payment: Balance)
    : Result<map<AccountId, OracleMeta>>
  {
    var _ :- Ensure(oracle in oracles, OracleNotFound);
    var total := oracles[oracle].withdrawable + payment;
    var _ :- Ensure(total <= rt.balanceMax, Overflow);
    Ok(oracles[oracle := oracles[oracle].(withdrawable := total)])
  }

  function SubmitStep(rt: Runtime, s: State, c: Call): Result<State>
    requires c.Submit?
  {
    var _ :- Ensure(c.id in s.feeds, FeedNotFound);
    var (f, payment) :- SubmitToFeed(rt, s.feeds[c.id], s.now, c.who, c.round, c.value);
    var (fund, config) :- FundPayment(rt, s.fund, f.config, payment, c.refused);
    var oracles :- Credit(rt, s.oracles, c.who, payment);
    Ok(WithFeed(s, c.id, f.(config := config)).(fund := fund, oracles := oracles))
  }

  function ChangeOraclesStep(rt: Runtime, s: State, c: Call): Result<State>
    requires c.ChangeOracles?
  {
    var _ :- Ensure(c.id in s.feeds, FeedNotFound);
    var _ :- Ensure(s.feeds[c.id].config.owner == c.who, NotFeedOwner);
    var reduced :- DisableOracles(s.feeds[c.id], c.toDisable);
    var (f, oracles) :- AddOracles(rt, reduced, s.oracles, c.toAdd);
    Ok(WithFeed(s, c.id, f).(oracles := oracles))
  }

  function UpdateRoundsStep(s: State, c: Call): Result<State>
    requires c.UpdateRounds?
  {
    var _ :- Ensure(c.id in s.feeds, FeedNotFound);
    var _ :- Ensure(s.feeds[c.id].config.owner == c.who, NotFeedOwner);
    var f :- UpdateFutureRounds(s.feeds[c.id], c.payment, c.bounds, c.restartDelay, c.timeout);
    Ok(WithFeed(s, c.id, f))
  }

  function SetRequesterStep(s: State, c: Call): Result<State>
    requires c.SetRequester?
  {
    var _ :- Ensure(c.id in s.feeds, FeedNotFound);
    var f := s.feeds[c.id];
    var _ :- Ensure(f.config.owner == c.who, NotFeedOwner);
    var last := if c.requester in f.requesters then f.requesters[c.requester].lastStartedRound else None;
    Ok(WithFeed(s, c.id, f.(requesters := f.requesters[c.requester := Requester(c.delay, last)])))
  }

  function RemoveRequesterStep(s: State, c: Call): Result<State>
    requires c.RemoveRequester?
  {
    var _ :- Ensure(c.id in s.feeds, FeedNotFound);
    var f := s.feeds[c.id];
    var _ :- Ensure(f.config.owner == c.who, NotFeedOwner);
    var _ :- Ensure(c.requester in f.requesters, RequesterNotFound);
    Ok(WithFeed(s, c.id, f.(requesters := f.requesters - {c.requester})))
  }

  /** The requester's own rate limit; notes the round it is about to start. */
  function TakeTurn(f: FeedState, who: AccountId): Result<FeedState>
    requires who in f.requesters
  {
    var q := f.requesters[who];
    var _ :- Ensure(f.config.reportingRound < U32_MAX, Overflow);
    var newRound := f.config.reportingRound + 1;
    var nextAllowed := q.lastStartedRound.GetOr(0) + q.delay;
    var _ :- Ensure(nextAllowed <= U32_MAX, Overflow);
    var _ :- Ensure(q.lastStartedRound.None? || newRound > nextAllowed, CannotRequestRoundYet);
    Ok(f.(requesters := f.requesters[who := q.(lastStartedRound := Some(newRound))]))
  }

  function RequestNewRoundStep(rt: Runtime, s: State, c: Call): Result<State>
    requires c.RequestNewRound?
  {
    var _ :- Ensure(c.id in s.feeds && c.who in s.feeds[c.id].requesters, NotAuthorizedRequester);
    var noted :- TakeTurn(s.feeds[c.id], c.who);
    var f :- RequestRound(rt, noted, s.now, c.who);
    Ok(WithFeed(s, c.id, f))
  }

  function RequestViaStep(rt: Runtime, s: State, c: Call): Result<State>
    requires c.RequestVia?
  {
    var _ :- Ensure(c.id in s.feeds, FeedNotFound);
    var f :- RequestRound(rt, s.feeds[c.id], s.now, c.who);
    Ok(WithFeed(s, c.id, f))
  }

  /** Not transactional: a refused transfer keeps the amount unreserved. */
  function WithdrawPaymentStep(rt: Runtime, s: State, c: Call): Outcome
    requires c.WithdrawPayment?
  {
    if c.oracle !in s.oracles then Outcome(s, Err(OracleNotFound))
    else
      var meta := s.oracles[c.oracle];
      if meta.admin != c.who then Outcome(s, Err(NotAdmin))
      else if c.amount > meta.withdrawable then Outcome(s, Err(InsufficientFunds))
      else if s.fund.reserved < c.amount then Outcome(s, Err(InsufficientReserve))
      else
        var unreserved := Fund(s.fund.free + c.amount, s.fund.reserved - c.amount);
        var transferred := TransferOut(rt, unreserved, c.recipient, c.amount, c.refused);
        if transferred.Err? then
          Outcome(s.(fund := unreserved, ledger := s.ledger.(released := s.ledger.released + c.amount)),
                  Err(transferred.error))
        else
          Outcome(
            s.(fund := transferred.value,
               oracles := s.oracles[c.oracle := meta.(withdrawable := meta.withdrawable - c.amount)],
               ledger := s.ledger.(paid := s.ledger.paid[c.oracle := PaidTo(s.ledger, c.oracle) + c.amount])),
            Ok(()))
  }

  function WithdrawFundsStep(rt: Runtime, s: State, c: Call): Result<State>
    requires c.WithdrawFunds?
  {
    var _ :- Ensure(c.who == s.palletAdmin, NotPalletAdmin);
    var _ :- Ensure(c.amount <= s.fund.free, InsufficientFunds);
    var _ :- Ensure(s.fund.free - c.amount >= rt.minimumReserve, InsufficientReserve);
    var fund :- TransferOut(rt, s.fund, c.recipient, c.amount, c.refused);
    Ok(s.(fund := fund))
  }

  function ReduceDebtStep(s: State, c: Call): Result<State>
    requires c.ReduceDebt?
  {
    var _ :- Ensure(c.id in s.feeds, FeedNotFound);
    var f := s.feeds[c.id];
    var toReserve := if c.amount <= f.config.debt then c.amount else f.config.debt;
    var fund :- Reserve(s.fund, toReserve, c.refused);
    Ok(WithFeed(s, c.id, f.(config := f.config.(debt := SaturatingSub(f.config.debt, c.amount)))).(fund := fund))
  }

  // --- permissions and environment ---

  function Administered(s: State, c: Call): State {
    match c
    case OwnerChanged(id, owner) =>
      if id in s.feeds then WithFeed(s, id, s.feeds[id].(config := s.feeds[id].config.(owner := owner))) else s
    case AdminChanged(oracle, admin) =>
      if oracle in s.oracles then s.(oracles := s.oracles[oracle := s.oracles[oracle].(admin := admin)]) else s
    case PermissionsChanged(admin, creators) => s.(palletAdmin := admin, feedCreators := creators)
    case FundEndowed(amount) => s.(fund := s.fund.(free := s.fund.free + amount))
    case BlockProduced(number) => if s.now <= number then s.(now := number) else s
    case _ => s
  }

  // --- runs ---

  function Step(rt: Runtime, s: State, c: Call): Outcome {
    match c
    case CreateFeed(_, _, _, _, _, _, _, _, _, _, _) => Transact(s, CreateFeedStep(rt, s, c))
    case SetPruningWindow(_, _, _) => Transact(s, SetPruningWindowStep(s, c))
    case Submit(_, _, _, _, _) => Transact(s, SubmitStep(rt, s, c))
    case ChangeOracles(_, _, _, _) => Transact(s, ChangeOraclesStep(rt, s, c))
    case UpdateRounds(_, _, _, _, _, _) => Transact(s, UpdateRoundsStep(s, c))
    case SetRequester(_, _, _, _) => Transact(s, SetRequesterStep(s, c))
    case RemoveRequester(_, _, _) => Transact(s, RemoveRequesterStep(s, c))
    case RequestNewRound(_, _) => Transact(s, RequestNewRoundStep(rt, s, c))
    case RequestVia(_, _) => Transact(s, RequestViaStep(rt, s, c))
    case WithdrawPayment(_, _, _, _, _) => WithdrawPaymentStep(rt, s, c)
    case WithdrawFunds(_, _, _, _) => Transact(s, WithdrawFundsStep(rt, s, c))
    case ReduceDebt(_, _, _, _) => Transact(s, ReduceDebtStep(s, c))
    case _ => Outcome(Administered(s, c), Ok(()))
  }

  /** `Step`, one kind of call at a time. */
  lemma StepOf(rt: Runtime, s: State, c: Call)
    ensures c.CreateFeed? ==> Step(rt, s, c) == Transact(s, CreateFeedStep(rt, s, c))
    ensures c.SetPruningWindow? ==> Step(rt, s, c) == Transact(s, SetPruningWindowStep(s, c))
    ensures c.Submit? ==> Step(rt, s, c) == Transact(s, SubmitStep(rt, s, c))
    ensures c.ChangeOracles? ==> Step(rt, s, c) == Transact(s, ChangeOraclesStep(rt, s, c))
    ensures c.UpdateRounds? ==> Step(rt, s, c) == Transact(s, UpdateRoundsStep(s, c))
    ensures c.RequestNewRound? ==> Step(rt, s, c) == Transact(s, RequestNewRoundStep(rt, s, c))
    ensures c.WithdrawPayment? ==> Step(rt, s, c) == WithdrawPaymentStep(rt, s, c)
    ensures c.WithdrawFunds? ==> Step(rt, s, c) == Transact(s, WithdrawFundsStep(rt, s, c))
    ensures c.ReduceDebt? ==> Step(rt, s, c) == Transact(s, ReduceDebtStep(s, c))
  {
    hide CreateFeedStep, SetPruningWindowStep, SubmitStep, ChangeOraclesStep, UpdateRoundsStep, SetRequesterStep,
      RemoveRequesterStep, RequestNewRoundStep, RequestViaStep, WithdrawPaymentStep, WithdrawFundsStep, ReduceDebtStep,
      Administered;
  }

  function Execute(rt: Runtime, s: State, calls: seq<Call>): State
    decreases |calls|
  {
    if calls == [] then s else Execute(rt, Step(rt, s, calls[0]).state, calls[1..])
  }

  function Genesis(palletAdmin: AccountId, feedCreators: set<AccountId>, free: Balance, now: BlockNumber): State {
    State(palletAdmin, feedCreators, 0, map[], map[], Fund(free, 0), now, Ledger(map[], 0))
  }
}
