/** Every error tells its caller the truth, and no call fails for any other reason. */
module Refusals {
  import opened Types
  import opened Feeds
  import opened FeedInvariant
  import opened FeedSteps
  import opened Origins
  import opened Pallets
  import opened Ledgers
  import opened Runs
  import opened Oracles
  import opened Stalls
  import opened Liveness
  import opened Terms
  import opened Creation

  // --- submitting ---

  /** What a feed means by refusing a submission. */
  ghost predicate FeedRefuses(rt: Runtime, f: FeedState, now: BlockNumber, who: AccountId, r: RoundId, value: Value, e: Error) {
    var reporting := f.config.reportingRound;
    match e
    case NotOracle => who !in f.statuses
    case OracleNotEnabled => who in f.statuses && r < f.statuses[who].startingRound
    case OracleDisabled =>
      who in f.statuses && f.statuses[who].endingRound.Some? && f.statuses[who].endingRound.value < r
    case ReportingOrder =>
      who in f.statuses && f.statuses[who].lastReportedRound.Some? && r <= f.statuses[who].lastReportedRound.value
    case InvalidRound =>
      r + 1 < reporting || reporting + 1 < r || (r + 1 == reporting && DataAt(f, reporting).Some?)
    case NotSupersedable =>
      r >= 2 && if r == reporting + 1 then !IsSupersedable(rt, f, now, reporting) else r - 1 !in f.rounds
    case SubmissionBelowMinimum => value < f.config.minValue
    case SubmissionAboveMaximum => value > f.config.maxValue
    case Overflow =>
      who in f.statuses && f.statuses[who].lastStartedRound.GetOr(0) + f.config.restartDelay >= U32_MAX
    case RoundNotFound => r == reporting + 1 && Stalled(rt, f, now)
    case NotAcceptingSubmissions => who in f.statuses && r !in f.details && !MayStart(f, who, r)
    case _ => false
  }

  lemma ValidRoundRefuses(rt: Runtime, f: FeedState, now: BlockNumber, who: AccountId, r: RoundId, value: Value)
    requires FeedInv(rt, f) && EnsureValidRound(rt, f, now, who, r).Err?
    ensures FeedRefuses(rt, f, now, who, r, value, EnsureValidRound(rt, f, now, who, r).error)
  {
    hide ProvenanceOk, CarryOk, OpenOk, OracleSide, IsTimedOut;
    var reporting := f.config.reportingRound;
    assert InWindow(f.config, reporting) || reporting == 0;
    var p := Previous(r);
    assert p in f.rounds && p < reporting ==> Answered(f.rounds[p]);
  }

  lemma OpeningRefuses(rt: Runtime, f: FeedState, now: BlockNumber, who: AccountId, r: RoundId, value: Value)
    requires WindowOk(f) && who in f.statuses && !Reopens(f, who, r) && OpenIfEligible(rt, f, now, who, r).Err?
    ensures FeedRefuses(rt, f, now, who, r, value, OpenIfEligible(rt, f, now, who, r).error)
  {
    hide WindowOk;
  }

  lemma AcceptanceRefuses(rt: Runtime, f: FeedState, now: BlockNumber, who: AccountId, r: RoundId, value: Value)
    requires FeedInv(rt, f) && who in f.statuses && !Reopens(f, who, r) && OpenIfEligible(rt, f, now, who, r).Ok?
    requires who in OpenIfEligible(rt, f, now, who, r).value.statuses
    requires Accept(rt, OpenIfEligible(rt, f, now, who, r).value, now, who, r, value).Err?
    ensures FeedRefuses(rt, f, now, who, r, value, Accept(rt, OpenIfEligible(rt, f, now, who, r).value, now, who, r, value).error)
  {
    hide FeedInv, CountersOk, WindowOk, OpenOk, Recorded, Answer, PruneOldest;
    PartsOf(rt, f);
    if r in f.details {
      SubmissionCount(rt, f, r);
    }
  }

  lemma SubmissionRefused(rt: Runtime, f: FeedState, now: BlockNumber, who: AccountId, r: RoundId, value: Value)
    requires FeedInv(rt, f) && !Reopens(f, who, r) && SubmitToFeed(rt, f, now, who, r, value).Err?
    ensures FeedRefuses(rt, f, now, who, r, value, SubmitToFeed(rt, f, now, who, r, value).error)
  {
    hide FeedInv, WindowOk, OpenOk, EnsureValidRound, OpenIfEligible, Accept, Reopens;
    PartsOf(rt, f);
    if who in f.statuses {
      if EnsureValidRound(rt, f, now, who, r).Err? {
        ValidRoundRefuses(rt, f, now, who, r, value);
      } else if OpenIfEligible(rt, f, now, who, r).Err? {
        OpeningRefuses(rt, f, now, who, r, value);
      } else {
        OpenKeepsTerms(rt, f, now, who, r);
        if Accept(rt, OpenIfEligible(rt, f, now, who, r).value, now, who, r, value).Err? {
          AcceptanceRefuses(rt, f, now, who, r, value);
        }
      }
    }
  }

  /** What an accepted submission to round `r` would earn. */
  function Due(f: FeedState, r: RoundId): Balance {
    if r in f.details then f.details[r].payment else f.config.payment
  }

  lemma EarnsDue(rt: Runtime, f: FeedState, now: BlockNumber, who: AccountId, r: RoundId, value: Value)
    requires CountersOk(f.config) && WindowOk(f) && !Reopens(f, who, r) && SubmitToFeed(rt, f, now, who, r, value).Ok?
    ensures SubmitToFeed(rt, f, now, who, r, value).value.1 == Due(f, r)
  {
    hide EnsureValidRound, Accept;
    OpenKeepsTerms(rt, f, now, who, r);
    AcceptNeedsDetails(rt, OpenIfEligible(rt, f, now, who, r).value, now, who, r, value);
    if MayStart(f, who, r) {
      assert r !in f.details by { assert !InWindow(f.config, r); }
    }
  }

  /** What `submit` means by an error. */
  ghost predicate SubmitReason(rt: Runtime, s: State, c: Call, e: Error)
    requires c.Submit?
  {
    if c.id !in s.feeds then e == FeedNotFound
    else
      var f := s.feeds[c.id];
      var payment := Due(f, c.round);
      || FeedRefuses(rt, f, s.now, c.who, c.round, c.value, e)
      || (e == MaxDebtReached && f.config.maxDebt.Some? && f.config.debt + payment > f.config.maxDebt.value)
      || (e == Overflow && f.config.debt + payment > rt.balanceMax)
      || (e == Overflow && c.who in s.oracles && s.oracles[c.who].withdrawable + payment > rt.balanceMax)
  }

  lemma FundingRefused(rt: Runtime, fund: Fund, c: FeedConfig, payment: Balance, refused: bool)
    requires FundPayment(rt, fund, c, payment, refused).Err?
    ensures var e := FundPayment(rt, fund, c, payment, refused).error;
            || (e == MaxDebtReached && c.maxDebt.Some? && c.debt + payment > c.maxDebt.value)
            || (e == Overflow && c.debt + payment > rt.balanceMax)
  {
  }

  lemma SubmitTold(rt: Runtime, s: State, c: Call)
    requires Inv(rt, s) && InRange(s, c) && c.Submit? && SubmitStep(rt, s, c).Err?
    ensures SubmitReason(rt, s, c, SubmitStep(rt, s, c).error)
  {
    hide FeedInv, TraceOk, BooksOk, SubmitToFeed, FundPayment, FeedRefuses, CountersOk, WindowOk, OpenOk;
    if c.id in s.feeds {
      var f := s.feeds[c.id];
      assert FeedOk(rt, s, c.id, f);
      PartsOf(rt, f);
      if SubmitToFeed(rt, f, s.now, c.who, c.round, c.value).Err? {
        SubmissionRefused(rt, f, s.now, c.who, c.round, c.value);
      } else {
        var (g, payment) := SubmitToFeed(rt, f, s.now, c.who, c.round, c.value).value;
        EarnsDue(rt, f, s.now, c.who, c.round, c.value);
        SubmitKeepsLimits(rt, f, s.now, c.who, c.round, c.value);
        SubmitterIsOracle(rt, f, s.now, c.who, c.round, c.value);
        if FundPayment(rt, s.fund, g.config, payment, c.refused).Err? {
          FundingRefused(rt, s.fund, g.config, payment, c.refused);
        }
      }
    }
  }

  lemma SubmitterIsOracle(rt: Runtime, f: FeedState, now: BlockNumber, who: AccountId, r: RoundId, value: Value)
    requires SubmitToFeed(rt, f, now, who, r, value).Ok?
    ensures who in f.statuses
  {
    hide OpenIfEligible, Accept;
  }

  // --- oracles ---

  ghost predicate Mismatch(oracles: map<AccountId, OracleMeta>, list: seq<(AccountId, AccountId)>, i: nat)
    requires i < |list|
  {
    list[i].0 in oracles && oracles[list[i].0].admin != list[i].1
  }

  /** What adding oracles means by an error: repeated accounts may draw either. */
  ghost predicate AddingReason(
    statuses: map<AccountId, OracleStatus>, oracles: map<AccountId, OracleMeta>, toAdd: seq<(AccountId, AccountId)>, e: Error)
  {
    match e
    case OwnerCannotChangeAdmin => !Distinct(AccountsOf(toAdd)) || exists i :: 0 <= i < |toAdd| && Mismatch(oracles, toAdd, i)
    case AlreadyEnabled =>
      !Distinct(AccountsOf(toAdd)) || exists i :: 0 <= i < |toAdd| && toAdd[i].0 in EnabledOracles(statuses)
    case _ => false
  }

  lemma {:induction false} AddingRefused(
    statuses: map<AccountId, OracleStatus>, oracles: map<AccountId, OracleMeta>,
    reporting: RoundId, toAdd: seq<(AccountId, AccountId)>)
    requires EnableEach(statuses, oracles, reporting, toAdd).Err?
    ensures AddingReason(statuses, oracles, toAdd, EnableEach(statuses, oracles, reporting, toAdd).error)
    decreases |toAdd|
  {
    var head, rest := toAdd[0], toAdd[1..];
    var first := EnableOne(statuses, oracles, reporting, head.0, head.1);
    if first.Err? {
      assert head == toAdd[0];
      assert first.error == OwnerCannotChangeAdmin ==> Mismatch(oracles, toAdd, 0);
    } else {
      var (s, m) := first.value;
      AddingRefused(s, m, reporting, rest);
      assert AccountsOf(toAdd)[1..] == AccountsOf(rest);
      DistinctTail(AccountsOf(toAdd));
      forall i | 0 <= i < |rest| && Distinct(AccountsOf(toAdd))
        ensures rest[i] == toAdd[i + 1] && rest[i].0 != head.0
        ensures Mismatch(m, rest, i) ==> Mismatch(oracles, toAdd, i + 1)
        ensures rest[i].0 in EnabledOracles(s) ==> toAdd[i + 1].0 in EnabledOracles(statuses)
      {
        assert AccountsOf(rest)[i] == rest[i].0;
      }
    }
  }

  ghost predicate DisablingReason(statuses: map<AccountId, OracleStatus>, toDisable: seq<AccountId>, e: Error) {
    match e
    case OracleNotFound => exists i :: 0 <= i < |toDisable| && toDisable[i] !in statuses
    case OracleDisabled =>
      !Distinct(toDisable) || exists i :: 0 <= i < |toDisable| && toDisable[i] in statuses && !Enabled(statuses[toDisable[i]])
    case _ => false
  }

  lemma {:induction false} DisablingRefused(
    statuses: map<AccountId, OracleStatus>, reporting: RoundId, toDisable: seq<AccountId>)
    requires DisableEach(statuses, reporting, toDisable).Err?
    ensures DisablingReason(statuses, toDisable, DisableEach(statuses, reporting, toDisable).error)
    decreases |toDisable|
  {
    var head, rest := toDisable[0], toDisable[1..];
    if DisableOne(statuses, reporting, head).Ok? {
      var s := DisableOne(statuses, reporting, head).value;
      DisablingRefused(s, reporting, rest);
      DistinctTail(toDisable);
      assert forall i :: 0 <= i < |rest| ==> rest[i] == toDisable[i + 1];
    }
  }

  /** What `change_oracles` means by an error. */
  ghost predicate ChangeReason(rt: Runtime, s: State, c: Call, e: Error)
    requires c.ChangeOracles?
  {
    if c.id !in s.feeds then e == FeedNotFound
    else
      var f := s.feeds[c.id];
      match e
      case NotFeedOwner => f.config.owner != c.who
      case NotEnoughOracles => f.config.oracleCount < |c.toDisable|
      case OraclesLimitExceeded => f.config.oracleCount - |c.toDisable| + |c.toAdd| > rt.oracleCountLimit
      case OwnerCannotChangeAdmin => AddingReason(f.statuses, s.oracles, c.toAdd, e)
      case AlreadyEnabled => AddingReason(f.statuses, s.oracles, c.toAdd, e)
      case _ => DisablingReason(f.statuses, c.toDisable, e)
  }

  lemma ChangeTold(rt: Runtime, s: State, c: Call)
    requires RuntimeOk(rt) && c.ChangeOracles? && ChangeOraclesStep(rt, s, c).Err?
    ensures ChangeReason(rt, s, c, ChangeOraclesStep(rt, s, c).error)
  {
    hide EnableEach, DisableEach, Distinct;
    if c.id in s.feeds && s.feeds[c.id].config.owner == c.who && |c.toDisable| <= s.feeds[c.id].config.oracleCount {
      var f := s.feeds[c.id];
      var reporting := f.config.reportingRound;
      if DisableEach(f.statuses, reporting, c.toDisable).Err? {
        DisablingRefused(f.statuses, reporting, c.toDisable);
      } else {
        var later := DisableEach(f.statuses, reporting, c.toDisable).value;
        if EnableEach(later, s.oracles, reporting, c.toAdd).Err? {
          AddingRefused(later, s.oracles, reporting, c.toAdd);
          EnabledAfterDisabling(f.statuses, reporting, c.toDisable);
          assert EnabledOracles(later) <= EnabledOracles(f.statuses);
        }
      }
    }
  }

  // --- the other calls ---

  ghost predicate TermsReason(t: RoundTerms, count: u32, e: Error) {
    match e
    case WrongBounds => !(1 <= t.bounds.min <= t.bounds.max)
    case MaxExceededTotal => count < t.bounds.max
    case DelayNotBelowCount => count <= t.restartDelay
    case _ => false
  }

  ghost predicate CreateReason(rt: Runtime, s: State, c: Call, e: Error)
    requires c.CreateFeed?
  {
    match e
    case NotFeedCreator => c.who !in s.feedCreators
    case DescriptionTooLong => c.descriptionLength > rt.stringLimit
    case CannotPruneRoundZero => c.pruningWindow == Some(0)
    case FeedLimitReached => s.feedCounter >= rt.feedLimit
    case Overflow => s.feedCounter >= rt.feedIdMax
    case OraclesLimitExceeded => |c.newOracles| > rt.oracleCountLimit
    case MaxExceededTotal => false
    case OwnerCannotChangeAdmin => AddingReason(map[], s.oracles, c.newOracles, e)
    case AlreadyEnabled => !Distinct(AccountsOf(c.newOracles))
    case _ => TermsReason(CreationTerms(c), |c.newOracles|, e)
  }

  lemma CreateTold(rt: Runtime, s: State, c: Call)
    requires c.CreateFeed? && CreateFeedStep(rt, s, c).Err?
    ensures CreateReason(rt, s, c, CreateFeedStep(rt, s, c).error)
  {
    hide EnableEach, Distinct;
    if EnableEach(map[], s.oracles, 0, c.newOracles).Err? {
      AddingRefused(map[], s.oracles, 0, c.newOracles);
      assert EnabledOracles(map[]) == {};
    }
  }

  /** What asking for a round means by an error. */
  ghost predicate RequestReason(rt: Runtime, s: State, c: Call, e: Error)
    requires c.RequestNewRound? || c.RequestVia?
  {
    if c.id !in s.feeds then e == (if c.RequestVia? then FeedNotFound else NotAuthorizedRequester)
    else
      var f := s.feeds[c.id];
      match e
      case NotAuthorizedRequester => c.RequestNewRound? && c.who !in f.requesters
      case CannotRequestRoundYet =>
        && c.RequestNewRound? && c.who in f.requesters && f.requesters[c.who].lastStartedRound.Some?
        && f.config.reportingRound < f.requesters[c.who].lastStartedRound.value + f.requesters[c.who].delay <= U32_MAX
      case RoundNotSupersedable => !IsSupersedable(rt, f, s.now, f.config.reportingRound)
      case RoundNotFound => Stalled(rt, f, s.now)
      case Overflow =>
        || f.config.reportingRound == U32_MAX
        || (c.RequestNewRound? && c.who in f.requesters
            && f.requesters[c.who].lastStartedRound.GetOr(0) + f.requesters[c.who].delay > U32_MAX)
      case _ => false
  }

  lemma RequestRefused(rt: Runtime, f: FeedState, now: BlockNumber, who: AccountId)
    requires RequestRound(rt, f, now, who).Err?
    ensures match RequestRound(rt, f, now, who).error
            case Overflow => f.config.reportingRound == U32_MAX
            case RoundNotSupersedable => !IsSupersedable(rt, f, now, f.config.reportingRound)
            case RoundNotFound => Stalled(rt, f, now)
            case _ => false
  {
  }

  lemma RequestTold(rt: Runtime, s: State, c: Call)
    requires (c.RequestNewRound? || c.RequestVia?) && Step(rt, s, c).result.Err?
    ensures RequestReason(rt, s, c, Step(rt, s, c).result.error)
  {
    if c.id in s.feeds {
      var f := s.feeds[c.id];
      if c.RequestVia? {
        RequestRefused(rt, f, s.now, c.who);
      } else if c.who in f.requesters && TakeTurn(f, c.who).Ok? {
        RequestRefused(rt, TakeTurn(f, c.who).value, s.now, c.who);
      }
    }
    hide RequestRound;
  }

  ghost predicate OwnerReason(s: State, c: Call, e: Error)
    requires c.SetPruningWindow? || c.UpdateRounds? || c.SetRequester? || c.RemoveRequester?
  {
    match e
    case FeedNotFound => c.id !in s.feeds
    case NotFeedOwner => c.id in s.feeds && s.feeds[c.id].config.owner != c.who
    case CannotPruneRoundZero => c.SetPruningWindow? && c.window == 0
    case RequesterNotFound => c.RemoveRequester? && c.id in s.feeds && c.requester !in s.feeds[c.id].requesters
    case _ => c.UpdateRounds? && c.id in s.feeds && TermsReason(CallTerms(c), s.feeds[c.id].config.oracleCount, e)
  }

  ghost predicate MoneyReason(rt: Runtime, s: State, c: Call, e: Error)
    requires c.WithdrawPayment? || c.WithdrawFunds? || c.ReduceDebt?
  {
    match e
    case OracleNotFound => c.WithdrawPayment? && c.oracle !in s.oracles
    case NotAdmin => c.WithdrawPayment? && c.oracle in s.oracles && s.oracles[c.oracle].admin != c.who
    case NotPalletAdmin => c.WithdrawFunds? && c.who != s.palletAdmin
    case FeedNotFound => c.ReduceDebt? && c.id !in s.feeds
    case InsufficientFunds =>
      || (c.WithdrawPayment? && c.oracle in s.oracles && s.oracles[c.oracle].withdrawable < c.amount)
      || (c.WithdrawFunds? && s.fund.free < c.amount)
    case InsufficientReserve =>
      || (c.WithdrawPayment? && s.fund.reserved < c.amount)
      || (c.WithdrawFunds? && s.fund.free < c.amount + rt.minimumReserve)
    case CurrencyRefused => c.refused || (c.ReduceDebt? && s.fund.free < c.amount)
    case _ => false
  }

  lemma OwnerTold(rt: Runtime, s: State, c: Call)
    requires (c.SetPruningWindow? || c.UpdateRounds? || c.SetRequester? || c.RemoveRequester?) && Step(rt, s, c).result.Err?
    ensures OwnerReason(s, c, Step(rt, s, c).result.error)
  {
    hide PrunedToWindow;
  }

  lemma MoneyTold(rt: Runtime, s: State, c: Call)
    requires (c.WithdrawPayment? || c.WithdrawFunds? || c.ReduceDebt?) && Step(rt, s, c).result.Err?
    ensures MoneyReason(rt, s, c, Step(rt, s, c).result.error)
  {
  }

  /** What the call means by failing with `e`. */
  ghost predicate Reason(rt: Runtime, s: State, c: Call, e: Error) {
    if c.Submit? then SubmitReason(rt, s, c, e)
    else if c.ChangeOracles? then ChangeReason(rt, s, c, e)
    else if c.CreateFeed? then CreateReason(rt, s, c, e)
    else if c.RequestNewRound? || c.RequestVia? then RequestReason(rt, s, c, e)
    else if c.SetPruningWindow? || c.UpdateRounds? || c.SetRequester? || c.RemoveRequester? then OwnerReason(s, c, e)
    else if c.WithdrawPayment? || c.WithdrawFunds? || c.ReduceDebt? then MoneyReason(rt, s, c, e)
    else false
  }

  /** In every reachable state, whatever error a call fails with, its reason is a fact. */
  lemma ErrorsTellTheTruth(rt: Runtime, s: State, c: Call)
    requires RuntimeOk(rt) && Reachable(rt, s) && InRange(s, c) && Step(rt, s, c).result.Err?
    ensures Reason(rt, s, c, Step(rt, s, c).result.error)
  {
    hide Reachable, Inv, InRange, SubmitReason, ChangeReason, CreateReason, RequestReason, OwnerReason, MoneyReason,
      SubmitStep, ChangeOraclesStep, CreateFeedStep, UpdateRoundsStep, SetPruningWindowStep, SetRequesterStep,
      RemoveRequesterStep, RequestNewRoundStep, RequestViaStep, WithdrawPaymentStep, WithdrawFundsStep, ReduceDebtStep;
    ReachableInv(rt, s);
    if c.Submit? {
      SubmitTold(rt, s, c);
    } else if c.ChangeOracles? {
      ChangeTold(rt, s, c);
    } else if c.CreateFeed? {
      CreateTold(rt, s, c);
    } else if c.RequestNewRound? || c.RequestVia? {
      RequestTold(rt, s, c);
    } else if c.SetPruningWindow? || c.UpdateRounds? || c.SetRequester? || c.RemoveRequester? {
      OwnerTold(rt, s, c);
    } else if c.WithdrawPayment? || c.WithdrawFunds? || c.ReduceDebt? {
      MoneyTold(rt, s, c);
    }
  }
}
