/** Widths, accounts, errors and the records that pallet-chainlink-feed keeps in storage. */
module Types {

  const U32_MAX: int := 0xFFFF_FFFF

  type u32 = n: int | 0 <= n <= U32_MAX
  type RoundId = u32
  /** A pruning window: both places that store one reject zero. */
  type Window = n: u32 | 1 <= n witness 1

  type AccountId = nat
  type FeedId = nat
  type Value = nat
  type Balance = nat
  type BlockNumber = nat

  datatype Option<+T> = None | Some(value: T) {
    function GetOr(default: T): T {
      match this
      case Some(v) => v
      case None => default
    }
  }

  datatype Error =
    | Overflow
    | NotOracle
    | OracleNotEnabled
    | OracleDisabled
    | NotEnoughOracles
    | ReportingOrder
    | FeedNotFound
    | RoundNotFound
    | RequesterNotFound
    | RoundNotSupersedable
    | OracleNotFound
    | NotAcceptingSubmissions
    | SubmissionBelowMinimum
    | SubmissionAboveMaximum
    | DescriptionTooLong
    | OraclesLimitExceeded
    | AlreadyEnabled
    | OwnerCannotChangeAdmin
    | NotFeedOwner
    | WrongBounds
    | MaxExceededTotal
    | DelayNotBelowCount
    | NotAdmin
    | CannotRequestRoundYet
    | NotAuthorizedRequester
    | InsufficientFunds
    | InsufficientReserve
    | NotPalletAdmin
    | CannotPruneRoundZero
    | FeedLimitReached
    | NotSupersedable
    | InvalidRound
    | NotFeedCreator
    | MaxDebtReached
    | CurrencyRefused  // an error raised by the currency, not by this pallet

  datatype Result<+T> = Ok(value: T) | Err(error: Error) {
    predicate IsFailure() { Err? }
    function PropagateFailure<U>(): Result<U>
      requires Err?
    {
      Err(error)
    }
    function Extract(): T
      requires Ok?
    {
      value
    }
  }

  /** Whether an operation succeeded, and the error if not. */
  function Verdict<T>(r: Result<T>): Result<()> {
    match r
    case Ok(_) => Ok(())
    case Err(e) => Err(e)
  }

  /** `ensure!`: nothing, or an error to return. */
  function Ensure(condition: bool, error: Error): Result<()> {
    if condition then Ok(()) else Err(error)
  }

  function SaturatingAdd(a: nat, b: nat, max: nat): nat {
    if a + b <= max then a + b else max
  }

  function SaturatingSub(a: nat, b: nat): nat {
    if b <= a then a - b else 0
  }

  function Next(r: RoundId): RoundId {
    if r < U32_MAX then r + 1 else U32_MAX
  }

  function Previous(r: RoundId): RoundId {
    if r > 0 then r - 1 else 0
  }

  /** The associated types and constants of the pallet's `Config`. */
  datatype Runtime = Runtime(
    valueMax: Value,
    balanceMax: Balance,
    blockMax: BlockNumber,
    feedIdMax: FeedId,
    minimumReserve: Balance,
    stringLimit: nat,
    oracleCountLimit: u32,
    feedLimit: FeedId,
    fundAccount: AccountId)

  datatype CountBounds = CountBounds(min: u32, max: u32)

  datatype FeedConfig = FeedConfig(
    owner: AccountId,
    minValue: Value,
    maxValue: Value,
    countBounds: CountBounds,
    payment: Balance,
    timeout: BlockNumber,
    restartDelay: RoundId,
    reportingRound: RoundId,
    latestRound: RoundId,
    firstValidRound: Option<RoundId>,
    oracleCount: u32,
    pruningWindow: Window,
    nextRoundToPrune: RoundId,
    debt: Balance,
    maxDebt: Option<Balance>)

  datatype Round = Round(
    startedAt: BlockNumber,
    answer: Option<Value>,
    updatedAt: Option<BlockNumber>,
    answeredInRound: Option<RoundId>)

  datatype RoundData = RoundData(
    startedAt: BlockNumber,
    answer: Value,
    updatedAt: BlockNumber,
    answeredInRound: RoundId)

  datatype RoundDetails = RoundDetails(
    submissions: seq<Value>,
    countBounds: CountBounds,
    payment: Balance,
    timeout: BlockNumber)

  datatype OracleMeta = OracleMeta(withdrawable: Balance, admin: AccountId)

  datatype OracleStatus = OracleStatus(
    startingRound: RoundId,
    endingRound: Option<RoundId>,
    lastReportedRound: Option<RoundId>,
    lastStartedRound: Option<RoundId>,
    latestSubmission: Option<Value>)

  datatype Requester = Requester(delay: RoundId, lastStartedRound: Option<RoundId>)

  /** An oracle paired with the admin that may withdraw for it. Vectors have 32-bit lengths. */
  type OracleList = s: seq<(AccountId, AccountId)> | |s| <= U32_MAX
  type AccountList = s: seq<AccountId> | |s| <= U32_MAX

  /** Who opened a round: an oracle by submitting to it, or a requester. */
  datatype Starter = ByOracle(oracle: AccountId) | ByRequest(requester: AccountId)

  /** The terms a round was opened under. */
  datatype Opening = Opening(
    starter: Starter,
    restartDelay: RoundId,
    countBounds: CountBounds,
    payment: Balance,
    timeout: BlockNumber,
    openedAt: BlockNumber)

  datatype Submission = Submission(oracle: AccountId, round: RoundId, value: Value, at: BlockNumber)

  /** What happened on a feed so far; the pallet does not store it and never reads it. */
  datatype History = History(openings: map<RoundId, Opening>, accepted: seq<Submission>)
}
