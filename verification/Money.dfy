/** Solvency, earnings and atomicity over whole runs. */
module Money {
  import opened Types
  import opened Feeds
  import opened FeedInvariant
  import opened FeedSteps
  import opened Origins
  import opened Pallets
  import opened Totals
  import opened Ledgers
  import opened Runs

  /** The amount a call unreserves without paying it out: a payout that passes every check and is refused. */
  function RefusedAmount(s: State, c: Call): Balance {
    if c.WithdrawPayment? && c.refused && c.oracle in s.oracles && s.oracles[c.oracle].admin == c.who
       && c.amount <= s.oracles[c.oracle].withdrawable && c.amount <= s.fund.reserved
    then c.amount else 0
  }

  function RefusedIn(rt: Runtime, s: State, calls: seq<Call>): Balance
    decreases |calls|
  {
    if calls == [] then 0 else RefusedAmount(s, calls[0]) + RefusedIn(rt, Step(rt, s, calls[0]).state, calls[1..])
  }

  lemma StepReleases(rt: Runtime, s: State, c: Call)
    ensures Step(rt, s, c).state.ledger.released == s.ledger.released + RefusedAmount(s, c)
  {
    hide AddOracles, UpdateFutureRounds, SubmitToFeed, RequestRound, DisableOracles, PrunedToWindow, TakeTurn;
  }

  lemma {:induction false} RunReleases(rt: Runtime, s: State, calls: seq<Call>)
    ensures Execute(rt, s, calls).ledger.released == s.ledger.released + RefusedIn(rt, s, calls)
    decreases |calls|
  {
    hide Step;
    if calls != [] {
      StepReleases(rt, s, calls[0]);
      RunReleases(rt, Step(rt, s, calls[0]).state, calls[1..]);
    }
  }

  /**
   Conservation over all feeds, oracles and runs: what oracles may withdraw is never less than
   the reserve plus all debts, and equals it exactly when the run refused no payout.
   */
  lemma LedgerSolvency(
    rt: Runtime, admin: AccountId, creators: set<AccountId>, free: Balance, now: BlockNumber, calls: seq<Call>)
    requires RuntimeOk(rt) && RunInRange(rt, Genesis(admin, creators, free, now), calls)
    ensures var s := Execute(rt, Genesis(admin, creators, free, now), calls);
            var lost := RefusedIn(rt, Genesis(admin, creators, free, now), calls);
            && Total(Withdrawables(s.oracles)) == s.fund.reserved + Total(Debts(s.feeds)) + lost
            && (Total(Withdrawables(s.oracles)) == s.fund.reserved + Total(Debts(s.feeds)) <==> lost == 0)
  {
    var g := Genesis(admin, creators, free, now);
    hide Execute, RunInRange, RefusedIn, FeedsOk;
    GenesisInv(rt, admin, creators, free, now);
    RunKeeps(rt, g, calls);
    RunReleases(rt, g, calls);
  }

  /** Without refused payouts and without debt, every oracle can be paid its full balance. */
  lemma FullBalanceIsPayable(rt: Runtime, s: State, oracle: AccountId, recipient: AccountId)
    requires RuntimeOk(rt) && Reachable(rt, s) && oracle in s.oracles
    requires s.ledger.released == 0 && Total(Debts(s.feeds)) == 0
    ensures var c := WithdrawPayment(s.oracles[oracle].admin, oracle, recipient, s.oracles[oracle].withdrawable, false);
            && s.oracles[oracle].withdrawable <= s.fund.reserved
            && Step(rt, s, c).result.Ok?
            && Step(rt, s, c).state.oracles[oracle].withdrawable == 0
  {
    hide Reachable, FeedsOk;
    ReachableInv(rt, s);
    MemberAtMostTotal(Withdrawables(s.oracles), oracle);
    PayoutIff(rt, s, WithdrawPayment(s.oracles[oracle].admin, oracle, recipient, s.oracles[oracle].withdrawable, false));
  }

  /** Every oracle's balance and payouts add up to the payments its accepted submissions were promised. */
  lemma EarningsLedger(rt: Runtime, s: State, oracle: AccountId)
    requires RuntimeOk(rt) && Reachable(rt, s)
    ensures Withdrawable(s.oracles, oracle) + PaidTo(s.ledger, oracle) == Total(Earnings(s.feeds, oracle))
  {
    hide Reachable, FeedsOk;
    ReachableInv(rt, s);
    assert AccountedFor(s, oracle);
  }

  /** A failing call changes the pallet's state exactly when it is a refused payout of a positive amount. */
  lemma FailuresChangeNothing(rt: Runtime, s: State, c: Call)
    requires Step(rt, s, c).result.Err?
    ensures Step(rt, s, c).state == s <==> RefusedAmount(s, c) == 0
  {
    hide AddOracles, UpdateFutureRounds, SubmitToFeed, RequestRound, DisableOracles, PrunedToWindow, TakeTurn;
  }

  /** No feed owes more than its limit. */
  lemma DebtWithinLimit(rt: Runtime, s: State, id: FeedId)
    requires RuntimeOk(rt) && Reachable(rt, s) && id in s.feeds && s.feeds[id].config.maxDebt.Some?
    ensures s.feeds[id].config.debt <= s.feeds[id].config.maxDebt.value
  {
    hide Reachable;
    ReachableInv(rt, s);
    assert FeedOk(rt, s, id, s.feeds[id]);
  }

  /** The payment can be reserved, or put on the feed's tab within its limit, if it has one. */
  ghost predicate Payable(rt: Runtime, fund: Fund, c: FeedConfig, payment: Balance, refused: bool) {
    || (!refused && payment <= fund.free)
    || (c.debt + payment <= rt.balanceMax && (c.maxDebt.Some? ==> c.debt + payment <= c.maxDebt.value))
  }

  /** A feed without a limit can go into debt for as long as the debt can be represented. */
  lemma FundingIff(rt: Runtime, fund: Fund, c: FeedConfig, payment: Balance, refused: bool)
    ensures FundPayment(rt, fund, c, payment, refused).Ok? <==> Payable(rt, fund, c, payment, refused)
  {
  }

  /**
   An accepted submission earns its oracle the payment promised when the round was opened. The fund
   reserves it if it can, and only otherwise does the feed go into debt.
   */
  lemma SubmissionIsFunded(rt: Runtime, s: State, c: Call)
    requires RuntimeOk(rt) && Reachable(rt, s) && c.Submit? && InRange(s, c) && Step(rt, s, c).result.Ok?
    ensures var s' := Step(rt, s, c).state;
            && c.id in s.feeds && c.id in s'.feeds && c.round in s'.feeds[c.id].history.openings
            && var payment := s'.feeds[c.id].history.openings[c.round].payment;
               && Withdrawable(s'.oracles, c.who) == Withdrawable(s.oracles, c.who) + payment
               && if !c.refused && payment <= s.fund.free
                  then s'.fund == Fund(s.fund.free - payment, s.fund.reserved + payment)
                       && s'.feeds[c.id].config.debt == s.feeds[c.id].config.debt
                  else s'.fund == s.fund && s'.feeds[c.id].config.debt == s.feeds[c.id].config.debt + payment
  {
    hide Reachable, BooksOk, SubmitToFeed, FeedInv, TraceOk;
    ReachableInv(rt, s);
    StepOf(rt, s, c);
    hide Step;
    assert FeedOk(rt, s, c.id, s.feeds[c.id]);
    SubmitEarns(rt, s.feeds[c.id], s.now, c.who, c.round, c.value);
    PaymentIsPromised(rt, s.feeds[c.id], s.now, c.who, c.round, c.value);
  }

  lemma PaymentIsPromised(rt: Runtime, f: FeedState, now: BlockNumber, oracle: AccountId, r: RoundId, value: Value)
    requires FeedInv(rt, f) && !Reopens(f, oracle, r) && SubmitToFeed(rt, f, now, oracle, r, value).Ok?
    ensures var (g, payment) := SubmitToFeed(rt, f, now, oracle, r, value).value;
            r in g.history.openings && payment == g.history.openings[r].payment
  {
    hide FeedInv, EnsureValidRound, OpenIfEligible, Accept, WindowOk, OpenOk;
    OpenIfEligibleKeepsBounds(rt, f, now, oracle, r, value);
    OpenIfEligibleKeeps(rt, f, now, oracle, r);
    var g := OpenIfEligible(rt, f, now, oracle, r).value;
    PartsOf(rt, g);
    PromisedIn(rt, g, now, oracle, r, value);
  }

  lemma PromisedIn(rt: Runtime, f: FeedState, now: BlockNumber, oracle: AccountId, r: RoundId, value: Value)
    requires OpenOk(rt, f) && oracle in f.statuses && Accept(rt, f, now, oracle, r, value).Ok?
    ensures var g := Accept(rt, f, now, oracle, r, value).value;
            r in f.details && r in g.history.openings && f.details[r].payment == g.history.openings[r].payment
  {
  }

  /** A payout succeeds exactly when the admin asks for no more than is owed and reserved and the transfer is not refused. */
  lemma PayoutIff(rt: Runtime, s: State, c: Call)
    requires c.WithdrawPayment?
    ensures Step(rt, s, c).result.Ok?
       <==> c.oracle in s.oracles && s.oracles[c.oracle].admin == c.who
            && c.amount <= s.oracles[c.oracle].withdrawable && c.amount <= s.fund.reserved && !c.refused
  {
  }

  /** Anybody can clear a feed's debt if the fund has the money, and that makes it available to oracles. */
  lemma DebtCanBeCleared(rt: Runtime, s: State, who: AccountId, id: FeedId, refused: bool)
    requires id in s.feeds
    ensures var debt := s.feeds[id].config.debt; var o := Step(rt, s, ReduceDebt(who, id, debt, refused));
            && (o.result.Ok? <==> !refused && debt <= s.fund.free)
            && (o.result.Ok? ==>
                  o.state.feeds[id].config.debt == 0 && o.state.fund == Fund(s.fund.free - debt, s.fund.reserved + debt))
  {
  }

  /** The admin can take free funds down to the minimum, and never what is reserved for oracles. */
  lemma FundsWithdrawalIff(rt: Runtime, s: State, c: Call)
    requires c.WithdrawFunds?
    ensures Step(rt, s, c).result.Ok?
       <==> c.who == s.palletAdmin && c.amount + rt.minimumReserve <= s.fund.free && !c.refused
    ensures Step(rt, s, c).state.fund.reserved == s.fund.reserved
    ensures Step(rt, s, c).result.Ok? ==>
              && s.fund.free >= c.amount + rt.minimumReserve
              && Step(rt, s, c).state.fund.free == s.fund.free - (if c.recipient == rt.fundAccount then 0 else c.amount)
  {
  }

  // --- where the money goes ---

  /**
   A payout takes exactly the amount from the oracle's balance and from the reserve, and hands it to the recipient: the
   free balance stays as it was, unless the fund pays itself.
   */
  lemma PayoutEffect(rt: Runtime, s: State, c: Call)
    requires c.WithdrawPayment? && Step(rt, s, c).result.Ok?
    ensures var s' := Step(rt, s, c).state;
            && s'.fund.reserved + c.amount == s.fund.reserved
            && s'.fund.free == s.fund.free + (if c.recipient == rt.fundAccount then c.amount else 0)
            && c.oracle in s.oracles && c.oracle in s'.oracles
            && s'.oracles[c.oracle].withdrawable + c.amount == s.oracles[c.oracle].withdrawable
            && s'.oracles[c.oracle].admin == s.oracles[c.oracle].admin
            && s'.oracles - {c.oracle} == s.oracles - {c.oracle} && s'.feeds == s.feeds
  {
    StepOf(rt, s, c);
    hide Step;
  }

  /** A refused payout moves the amount from the reserve to the free balance and does nothing else to the fund or the oracles. */
  lemma RefusedPayoutEffect(rt: Runtime, s: State, c: Call)
    requires c.WithdrawPayment? && RefusedAmount(s, c) > 0
    ensures var o := Step(rt, s, c);
            && o.result == Err(CurrencyRefused) && o.state.oracles == s.oracles && o.state.feeds == s.feeds
            && o.state.fund == Fund(s.fund.free + c.amount, s.fund.reserved - c.amount)
  {
    StepOf(rt, s, c);
    hide Step;
  }

  /** Any amount reduces the debt by no more than there is of it, and the reserve grows by exactly the reduction. */
  lemma DebtReduction(rt: Runtime, s: State, c: Call)
    requires c.ReduceDebt? && c.id in s.feeds
    ensures var o := Step(rt, s, c); var debt := s.feeds[c.id].config.debt;
            && c.id in o.state.feeds
            && var paid := debt - o.state.feeds[c.id].config.debt;
               && (o.result.Ok? <==> !c.refused && (c.amount <= s.fund.free || debt <= s.fund.free))
               && (o.result.Ok? ==> (paid == c.amount || paid == debt <= c.amount))
               && (o.result.Err? ==> paid == 0)
               && o.state.fund == Fund(s.fund.free - paid, s.fund.reserved + paid)
  {
    StepOf(rt, s, c);
    hide Step;
  }

  /** The amount the call brings into the fund from outside. */
  function Inflow(c: Call): Balance {
    if c.FundEndowed? then c.amount else 0
  }

  /** The amount the call pays out of the fund to another account. */
  function Outflow(rt: Runtime, s: State, c: Call): Balance {
    if (c.WithdrawPayment? || c.WithdrawFunds?) && c.recipient != rt.fundAccount && Step(rt, s, c).result.Ok?
    then c.amount else 0
  }

  function Inflows(calls: seq<Call>): Balance {
    if calls == [] then 0 else Inflow(calls[0]) + Inflows(calls[1..])
  }

  function Outflows(rt: Runtime, s: State, calls: seq<Call>): Balance
    decreases |calls|
  {
    if calls == [] then 0 else Outflow(rt, s, calls[0]) + Outflows(rt, Step(rt, s, calls[0]).state, calls[1..])
  }

  function Holdings(fund: Fund): Balance {
    fund.free + fund.reserved
  }

  lemma StepConserves(rt: Runtime, s: State, c: Call)
    ensures Holdings(Step(rt, s, c).state.fund) + Outflow(rt, s, c) == Holdings(s.fund) + Inflow(c)
  {
    hide AddOracles, UpdateFutureRounds, SubmitToFeed, RequestRound, DisableOracles, PrunedToWindow, TakeTurn;
  }

  lemma {:induction false} RunConserves(rt: Runtime, s: State, calls: seq<Call>)
    ensures Holdings(Execute(rt, s, calls).fund) + Outflows(rt, s, calls) == Holdings(s.fund) + Inflows(calls)
    decreases |calls|
  {
    hide Step, Outflow, Inflow, Holdings;
    if calls != [] {
      StepConserves(rt, s, calls[0]);
      RunConserves(rt, Step(rt, s, calls[0]).state, calls[1..]);
    }
  }

  /** Free and reserved funds are what the fund started with and was endowed with, less what it paid to other accounts. */
  lemma FundConservation(
    rt: Runtime, admin: AccountId, creators: set<AccountId>, free: Balance, now: BlockNumber, calls: seq<Call>)
    ensures var s := Execute(rt, Genesis(admin, creators, free, now), calls);
            s.fund.free + s.fund.reserved + Outflows(rt, Genesis(admin, creators, free, now), calls) == free + Inflows(calls)
  {
    hide Execute, Outflows, Inflows;
    RunConserves(rt, Genesis(admin, creators, free, now), calls);
  }
}
