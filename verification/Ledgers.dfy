/** The books: who is owed what, and what the fund holds against it. */
module Ledgers {
  import opened Types
  import opened Feeds
  import opened FeedInvariant
  import opened RoundSteps
  import opened FeedSteps
  import opened Pallets
  import opened Totals

  // --- what a feed's history says an oracle earned ---

  function PaymentFor(openings: map<RoundId, Opening>, s: Submission, oracle: AccountId): Balance {
    if s.oracle == oracle && s.round in openings then openings[s.round].payment else 0
  }

  /** The payments, as fixed when each round was opened, of all accepted submissions of the oracle. */
  function Earned(openings: map<RoundId, Opening>, accepted: seq<Submission>, oracle: AccountId): Balance {
    if accepted == [] then 0
    else
      var n := |accepted| - 1;
      Earned(openings, accepted[..n], oracle) + PaymentFor(openings, accepted[n], oracle)
  }

  function EarnedOn(h: History, oracle: AccountId): Balance {
    Earned(h.openings, h.accepted, oracle)
  }

  lemma {:induction false} EarnedIgnoresLaterOpenings(
    openings: map<RoundId, Opening>, later: map<RoundId, Opening>, accepted: seq<Submission>, oracle: AccountId)
    requires forall i :: 0 <= i < |accepted| ==>
               && accepted[i].round in openings && accepted[i].round in later
               && later[accepted[i].round] == openings[accepted[i].round]
    ensures Earned(later, accepted, oracle) == Earned(openings, accepted, oracle)
  {
    if accepted != [] {
      EarnedIgnoresLaterOpenings(openings, later, accepted[..|accepted| - 1], oracle);
    }
  }

  lemma OpeningEarnsNothing(f: FeedState, now: BlockNumber, starter: Starter, oracle: AccountId)
    requires SubmissionsOk(f) && OpeningsOk(f) && f.config.reportingRound < U32_MAX
    ensures EarnedOn(NextOpened(f, now, starter).history, oracle) == EarnedOn(f.history, oracle)
  {
    var later := NextOpened(f, now, starter).history.openings;
    forall i | 0 <= i < |f.history.accepted|
      ensures f.history.accepted[i].round in f.history.openings
           && later[f.history.accepted[i].round] == f.history.openings[f.history.accepted[i].round]
    {
      assert SubmissionOk(f, f.history.accepted[i]);
    }
    EarnedIgnoresLaterOpenings(f.history.openings, later, f.history.accepted, oracle);
  }

  /** What an operation on a feed means for the books. */
  ghost predicate Earns(f: FeedState, g: FeedState, who: AccountId, payment: Balance) {
    && g.config.debt == f.config.debt
    && g.statuses.Keys == f.statuses.Keys
    && (forall o :: EarnedOn(g.history, o) == EarnedOn(f.history, o) + (if o == who then payment else 0))
  }

  lemma RequestEarnsNothing(rt: Runtime, f: FeedState, now: BlockNumber, requester: AccountId, who: AccountId)
    requires FeedInv(rt, f) && RequestRound(rt, f, now, requester).Ok?
    ensures Earns(f, RequestRound(rt, f, now, requester).value, who, 0)
  {
    hide RoundSide, SubmissionsOk, CountsOk, OpeningsOk, StatusesOk, OracleCountOk, EarnedOn;
    ReadyStateKeeps(rt, f, now);
    var ready := ReadyState(rt, f, now).value;
    var g := RequestRound(rt, f, now, requester).value;
    forall o ensures EarnedOn(g.history, o) == EarnedOn(f.history, o) {
      OpeningEarnsNothing(ready, now, ByRequest(requester), o);
    }
  }

  lemma OpenIfEligibleEarnsNothing(rt: Runtime, f: FeedState, now: BlockNumber, oracle: AccountId, r: RoundId, who: AccountId)
    requires FeedInv(rt, f) && !Reopens(f, oracle, r)
    requires EnsureValidRound(rt, f, now, oracle, r).Ok? && OpenIfEligible(rt, f, now, oracle, r).Ok?
    ensures Earns(f, OpenIfEligible(rt, f, now, oracle, r).value, who, 0)
  {
    hide RoundSide, SubmissionsOk, CountsOk, OpeningsOk, StatusesOk, OracleCountOk, EarnedOn;
    if MayStart(f, oracle, r) {
      ReadyStateKeeps(rt, f, now);
      var ready := ReadyState(rt, f, now).value;
      var g := OpenIfEligible(rt, f, now, oracle, r).value;
      assert g == MarkStarted(NextOpened(ready, now, ByOracle(oracle)), oracle, r);
      forall o ensures EarnedOn(g.history, o) == EarnedOn(f.history, o) {
        OpeningEarnsNothing(ready, now, ByOracle(oracle), o);
      }
    }
  }

  lemma AcceptEarns(rt: Runtime, f: FeedState, now: BlockNumber, oracle: AccountId, r: RoundId, value: Value)
    requires OpenOk(rt, f) && oracle in f.statuses && Accept(rt, f, now, oracle, r, value).Ok?
    ensures Earns(f, Accept(rt, f, now, oracle, r, value).value, oracle, f.details[r].payment)
  {
  }

  lemma SubmitEarns(rt: Runtime, f: FeedState, now: BlockNumber, oracle: AccountId, r: RoundId, value: Value)
    requires FeedInv(rt, f) && !Reopens(f, oracle, r)
    requires SubmitToFeed(rt, f, now, oracle, r, value).Ok?
    ensures var (g, payment) := SubmitToFeed(rt, f, now, oracle, r, value).value; Earns(f, g, oracle, payment)
  {
    hide EnsureValidRound, OpenIfEligible, FeedInv, WindowOk, OpenOk, Accept, EarnedOn;
    OpenIfEligibleEarnsNothing(rt, f, now, oracle, r, oracle);
    OpenIfEligibleKeeps(rt, f, now, oracle, r);
    var g := OpenIfEligible(rt, f, now, oracle, r).value;
    PartsOf(rt, g);
    AcceptEarns(rt, g, now, oracle, r, value);
  }

  // --- the totals ---

  function Withdrawables(oracles: map<AccountId, OracleMeta>): map<AccountId, Balance> {
    map o | o in oracles :: oracles[o].withdrawable
  }

  function Debts(feeds: map<FeedId, FeedState>): map<FeedId, Balance> {
    map id | id in feeds :: feeds[id].config.debt
  }

  function Earnings(feeds: map<FeedId, FeedState>, oracle: AccountId): map<FeedId, Balance> {
    map id | id in feeds :: EarnedOn(feeds[id].history, oracle)
  }

  function Withdrawable(oracles: map<AccountId, OracleMeta>, oracle: AccountId): Balance {
    if oracle in oracles then oracles[oracle].withdrawable else 0
  }

  /** Everything owed to oracles is reserved, owed by a feed, or was released by a refused transfer. */
  ghost predicate Solvent(s: State) {
    Total(Withdrawables(s.oracles)) == s.fund.reserved + Total(Debts(s.feeds)) + s.ledger.released
  }

  /** An oracle's balance and its past payouts add up to what its submissions earned. */
  ghost predicate AccountedFor(s: State, oracle: AccountId) {
    Withdrawable(s.oracles, oracle) + PaidTo(s.ledger, oracle) == Total(Earnings(s.feeds, oracle))
  }

  ghost predicate BooksOk(s: State) {
    Solvent(s) && forall o: AccountId :: AccountedFor(s, o)
  }

  ghost predicate SameBalances(a: map<AccountId, OracleMeta>, b: map<AccountId, OracleMeta>) {
    (forall o :: Withdrawable(b, o) == Withdrawable(a, o)) && Total(Withdrawables(b)) == Total(Withdrawables(a))
  }

  lemma {:induction false} EnablingKeepsBalances(
    statuses: map<AccountId, OracleStatus>, oracles: map<AccountId, OracleMeta>,
    reporting: RoundId, toAdd: seq<(AccountId, AccountId)>)
    requires EnableEach(statuses, oracles, reporting, toAdd).Ok?
    ensures var (later, metas) := EnableEach(statuses, oracles, reporting, toAdd).value;
            && SameBalances(oracles, metas) && oracles.Keys <= metas.Keys
            && (statuses.Keys <= oracles.Keys ==> later.Keys <= metas.Keys)
    decreases |toAdd|
  {
    if toAdd != [] {
      var o := toAdd[0].0;
      var (s, m) := EnableOne(statuses, oracles, reporting, o, toAdd[0].1).value;
      EnablingKeepsBalances(s, m, reporting, toAdd[1..]);
      if o !in oracles {
        TotalUpdate(Withdrawables(oracles), o, 0);
        assert Withdrawables(m) == Withdrawables(oracles)[o := 0];
      }
    }
  }

  lemma CreditAdds(rt: Runtime, oracles: map<AccountId, OracleMeta>, oracle: AccountId, payment: Balance)
    requires Credit(rt, oracles, oracle, payment).Ok?
    ensures var later := Credit(rt, oracles, oracle, payment).value;
            && Total(Withdrawables(later)) == Total(Withdrawables(oracles)) + payment
            && (forall o :: Withdrawable(later, o) == Withdrawable(oracles, o) + (if o == oracle then payment else 0))
  {
    var later := Credit(rt, oracles, oracle, payment).value;
    TotalUpdate(Withdrawables(oracles), oracle, later[oracle].withdrawable);
    assert Withdrawables(later) == Withdrawables(oracles)[oracle := later[oracle].withdrawable];
  }

  lemma DebtOfUpdated(feeds: map<FeedId, FeedState>, id: FeedId, g: FeedState)
    ensures Total(Debts(feeds[id := g])) + (if id in feeds then feeds[id].config.debt else 0)
         == Total(Debts(feeds)) + g.config.debt
  {
    TotalUpdate(Debts(feeds), id, g.config.debt);
    assert Debts(feeds[id := g]) == Debts(feeds)[id := g.config.debt];
  }

  lemma EarningsOfUpdated(feeds: map<FeedId, FeedState>, id: FeedId, g: FeedState, oracle: AccountId)
    ensures Total(Earnings(feeds[id := g], oracle)) + (if id in feeds then EarnedOn(feeds[id].history, oracle) else 0)
         == Total(Earnings(feeds, oracle)) + EarnedOn(g.history, oracle)
  {
    TotalUpdate(Earnings(feeds, oracle), id, EarnedOn(g.history, oracle));
    assert Earnings(feeds[id := g], oracle) == Earnings(feeds, oracle)[id := EarnedOn(g.history, oracle)];
  }

  /** A feed update that earns nobody anything and keeps its debt leaves the books alone. */
  lemma NeutralUpdate(s: State, id: FeedId, g: FeedState, s': State)
    requires BooksOk(s)
    requires id in s.feeds ==> Earns(s.feeds[id], g, 0, 0) || (g.config.debt == s.feeds[id].config.debt && g.history == s.feeds[id].history)
    requires id !in s.feeds ==> g.config.debt == 0 && g.history.accepted == []
    requires s'.feeds == s.feeds[id := g] && s'.fund.reserved == s.fund.reserved && s'.ledger == s.ledger
    requires SameBalances(s.oracles, s'.oracles)
    ensures BooksOk(s')
  {
    DebtOfUpdated(s.feeds, id, g);
    forall o: AccountId ensures AccountedFor(s', o) {
      assert AccountedFor(s, o);
      EarningsOfUpdated(s.feeds, id, g, o);
    }
  }

  lemma SubmitKeepsBooks(rt: Runtime, s: State, c: Call)
    requires c.Submit? && BooksOk(s) && SubmitStep(rt, s, c).Ok?
    requires FeedInv(rt, s.feeds[c.id]) && !Reopens(s.feeds[c.id], c.who, c.round)
    ensures BooksOk(SubmitStep(rt, s, c).value)
  {
    hide FeedInv, SubmitToFeed;
    var (f, payment) := SubmitToFeed(rt, s.feeds[c.id], s.now, c.who, c.round, c.value).value;
    SubmitEarns(rt, s.feeds[c.id], s.now, c.who, c.round, c.value);
    var (fund, config) := FundPayment(rt, s.fund, f.config, payment, c.refused).value;
    CreditAdds(rt, s.oracles, c.who, payment);
    var g := f.(config := config);
    var s' := SubmitStep(rt, s, c).value;
    DebtOfUpdated(s.feeds, c.id, g);
    assert Solvent(s');
    forall o: AccountId ensures AccountedFor(s', o) {
      assert AccountedFor(s, o);
      EarningsOfUpdated(s.feeds, c.id, g, o);
    }
  }

  lemma PayoutKeepsBooks(s: State, s': State, oracle: AccountId, amount: Balance)
    requires BooksOk(s) && oracle in s.oracles && amount <= s.oracles[oracle].withdrawable && amount <= s.fund.reserved
    requires s'.feeds == s.feeds && s'.fund.reserved == s.fund.reserved - amount && s'.ledger.released == s.ledger.released
    requires s'.oracles == s.oracles[oracle := s.oracles[oracle].(withdrawable := s.oracles[oracle].withdrawable - amount)]
    requires s'.ledger.paid == s.ledger.paid[oracle := PaidTo(s.ledger, oracle) + amount]
    ensures BooksOk(s')
  {
    var left := s.oracles[oracle].withdrawable - amount;
    TotalUpdate(Withdrawables(s.oracles), oracle, left);
    assert Withdrawables(s'.oracles) == Withdrawables(s.oracles)[oracle := left];
    forall o: AccountId ensures AccountedFor(s', o) {
      assert AccountedFor(s, o);
    }
  }

  lemma ReleaseKeepsBooks(s: State, s': State, amount: Balance)
    requires BooksOk(s) && amount <= s.fund.reserved && s'.feeds == s.feeds && s'.oracles == s.oracles
    requires s'.fund.reserved == s.fund.reserved - amount
    requires s'.ledger == s.ledger.(released := s.ledger.released + amount)
    ensures BooksOk(s')
  {
    forall o: AccountId ensures AccountedFor(s', o) {
      assert AccountedFor(s, o);
    }
  }

  lemma WithdrawalKeepsBooks(rt: Runtime, s: State, c: Call)
    requires c.WithdrawPayment? && BooksOk(s)
    ensures BooksOk(WithdrawPaymentStep(rt, s, c).state)
  {
    hide BooksOk;
    var r := WithdrawPaymentStep(rt, s, c);
    if r.result.Ok? {
      PayoutKeepsBooks(s, r.state, c.oracle, c.amount);
    } else if r.state != s {
      ReleaseKeepsBooks(s, r.state, c.amount);
    }
  }

  lemma ReduceDebtKeepsBooks(s: State, c: Call)
    requires c.ReduceDebt? && BooksOk(s) && ReduceDebtStep(s, c).Ok?
    ensures BooksOk(ReduceDebtStep(s, c).value)
  {
    var s' := ReduceDebtStep(s, c).value;
    DebtOfUpdated(s.feeds, c.id, s'.feeds[c.id]);
    forall o: AccountId ensures AccountedFor(s', o) {
      assert AccountedFor(s, o);
      EarningsOfUpdated(s.feeds, c.id, s'.feeds[c.id], o);
    }
  }
}
