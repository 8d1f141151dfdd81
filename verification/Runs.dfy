/** The pallet invariant holds in every state of every run, and every run only moves forward. */
module Runs {
  import opened Types
  import opened Feeds
  import opened FeedInvariant
  import opened FeedSteps
  import opened Progress
  import opened Origins
  import opened Pallets
  import opened Ledgers

  /** The limits that hold of a feed's configuration besides the counters. */
  ghost predicate LimitsOk(c: FeedConfig) {
    (c.maxDebt.Some? ==> c.debt <= c.maxDebt.value) && c.restartDelay < U32_MAX
  }

  ghost predicate FeedOk(rt: Runtime, s: State, id: FeedId, f: FeedState) {
    && id < s.feedCounter && f.statuses.Keys <= s.oracles.Keys
    && FeedInv(rt, f) && TraceOk(rt, f, s.now) && LimitsOk(f.config)
  }

  ghost predicate FeedsOk(rt: Runtime, s: State) {
    forall id :: id in s.feeds ==> FeedOk(rt, s, id, s.feeds[id])
  }

  ghost predicate Inv(rt: Runtime, s: State) {
    RuntimeOk(rt) && FeedsOk(rt, s) && BooksOk(s)
  }

  /** No feed disappears and each one advances. */
  ghost predicate Evolves(s: State, s': State) {
    && s.now <= s'.now
    && (forall id :: id in s.feeds ==> id in s'.feeds && Advances(s.feeds[id], s'.feeds[id]))
  }

  /** The one call that can break a feed: a submission that opens the last round id a second time. */
  ghost predicate InRange(s: State, c: Call) {
    c.Submit? && c.id in s.feeds ==> !Reopens(s.feeds[c.id], c.who, c.round)
  }

  lemma GenesisInv(rt: Runtime, palletAdmin: AccountId, feedCreators: set<AccountId>, free: Balance, now: BlockNumber)
    requires RuntimeOk(rt)
    ensures Inv(rt, Genesis(palletAdmin, feedCreators, free, now))
  {
    var s := Genesis(palletAdmin, feedCreators, free, now);
    assert Withdrawables(s.oracles) == map[] && Debts(s.feeds) == map[];
    forall o: AccountId ensures AccountedFor(s, o) {
      assert Earnings(s.feeds, o) == map[];
    }
  }

  lemma UnchangedEvolves(s: State, s': State)
    requires s'.feeds == s.feeds && s.now <= s'.now
    ensures Evolves(s, s')
  {
  }

  /** One feed moves on, or is added; the others stay. */
  lemma FeedMoves(rt: Runtime, s: State, id: FeedId, g: FeedState, s': State)
    requires FeedsOk(rt, s)
    requires s'.feeds == s.feeds[id := g] && s.feedCounter <= s'.feedCounter && s.oracles.Keys <= s'.oracles.Keys
    requires FeedOk(rt, s', id, g) && s'.now == s.now
    requires id in s.feeds ==> Advances(s.feeds[id], g)
    ensures FeedsOk(rt, s') && Evolves(s, s')
  {
    hide FeedInv, Advances, TraceOk;
    forall k | k in s.feeds ensures Advances(s.feeds[k], s'.feeds[k]) {
      SameRoundsAdvance(s.feeds[k], s.feeds[k]);
    }
    forall k | k in s'.feeds ensures FeedOk(rt, s', k, s'.feeds[k]) {
      assert k in s.feeds ==> FeedOk(rt, s, k, s.feeds[k]);
    }
  }

  // --- calls that only change terms of a feed ---

  lemma TermsChange(rt: Runtime, s: State, id: FeedId, g: FeedState)
    requires Inv(rt, s) && id in s.feeds && SameButTerms(s.feeds[id], g) && BoundsOk(g.config.countBounds)
    requires g.config.debt == s.feeds[id].config.debt && g.config.restartDelay < U32_MAX
    ensures Inv(rt, WithFeed(s, id, g)) && Evolves(s, WithFeed(s, id, g))
  {
    var f := s.feeds[id];
    assert FeedOk(rt, s, id, f);
    TermsKeep(rt, f, g);
    SameRoundsAdvance(f, g);
    TraceFrame(rt, f, g, s.now, s.now);
    hide FeedInv, Advances, BooksOk, TraceOk;
    FeedMoves(rt, s, id, g, WithFeed(s, id, g));
    NeutralUpdate(s, id, g, WithFeed(s, id, g));
  }

  // --- extrinsics ---

  lemma SeedFeedInv(rt: Runtime, config: FeedConfig, now: BlockNumber)
    requires config.reportingRound == 0 && config.latestRound == 0 && config.firstValidRound.None?
    requires config.oracleCount == 0 && config.nextRoundToPrune == 1 && BoundsOk(config.countBounds)
    ensures FeedInv(rt, SeedFeed(config, now))
  {
  }

  lemma SeedTrace(rt: Runtime, config: FeedConfig, now: BlockNumber)
    requires config.reportingRound == 0 && config.firstValidRound.None?
    ensures TraceOk(rt, SeedFeed(config, now), now)
  {
  }

  lemma CreateFeedInv(rt: Runtime, s: State, c: Call)
    requires c.CreateFeed? && RuntimeOk(rt) && CreateFeedStep(rt, s, c).Ok?
    ensures var s' := CreateFeedStep(rt, s, c).value;
            && s'.feeds.Keys == s.feeds.Keys + {s.feedCounter}
            && FeedInv(rt, s'.feeds[s.feedCounter])
            && TraceOk(rt, s'.feeds[s.feedCounter], s.now) && LimitsOk(s'.feeds[s.feedCounter].config)
  {
    var window := c.pruningWindow.GetOr(U32_MAX);
    var config := NewFeedConfig(c, window);
    var seed := SeedFeed(config, s.now);
    var (staffed, oracles) := AddOracles(rt, seed, s.oracles, c.newOracles).value;
    assert BoundsOk(config.countBounds);
    SeedFeedInv(rt, config, s.now);
    SeedTrace(rt, config, s.now);
    hide FeedInv, TraceOk;
    TraceFrame(rt, seed, CreateFeedStep(rt, s, c).value.feeds[s.feedCounter], s.now, s.now);
    AddOraclesKeeps(rt, seed, s.oracles, c.newOracles);
    UpdateFutureRoundsKeeps(rt, staffed, c.payment, CountBounds(c.minSubmissions, |c.newOracles|), c.restartDelay, c.timeout);
  }

  lemma CreateFeedKeeps(rt: Runtime, s: State, c: Call)
    requires c.CreateFeed? && Inv(rt, s) && CreateFeedStep(rt, s, c).Ok?
    ensures var s' := CreateFeedStep(rt, s, c).value; Inv(rt, s') && Evolves(s, s')
  {
    hide FeedInv, BooksOk, TraceOk;
    CreateFeedInv(rt, s, c);
    var s' := CreateFeedStep(rt, s, c).value;
    EnablingKeepsBalances(map[], s.oracles, 0, c.newOracles);
    assert forall id :: id in s.feeds ==> FeedOk(rt, s, id, s.feeds[id]) && id < s.feedCounter;
    FeedMoves(rt, s, s.feedCounter, s'.feeds[s.feedCounter], s');
    NeutralUpdate(s, s.feedCounter, s'.feeds[s.feedCounter], s');
  }

  lemma SetPruningWindowKeeps(rt: Runtime, s: State, c: Call)
    requires c.SetPruningWindow? && Inv(rt, s) && SetPruningWindowStep(s, c).Ok?
    ensures var s' := SetPruningWindowStep(s, c).value; Inv(rt, s') && Evolves(s, s')
  {
    hide FeedInv, BooksOk, Advances, TraceOk;
    var s' := SetPruningWindowStep(s, c).value;
    assert FeedOk(rt, s, c.id, s.feeds[c.id]);
    SetWindowKeeps(rt, s.feeds[c.id], c.window);
    SetWindowAdvances(rt, s.feeds[c.id], c.window);
    TraceWindow(rt, s.feeds[c.id], c.window, s.now);
    FeedMoves(rt, s, c.id, s'.feeds[c.id], s');
    NeutralUpdate(s, c.id, s'.feeds[c.id], s');
  }

  lemma SubmitKeeps(rt: Runtime, s: State, c: Call)
    requires c.Submit? && Inv(rt, s) && InRange(s, c) && SubmitStep(rt, s, c).Ok?
    ensures var s' := SubmitStep(rt, s, c).value; Inv(rt, s') && Evolves(s, s')
  {
    hide FeedInv, BooksOk, Advances, TraceOk, SubmitToFeed;
    var s' := SubmitStep(rt, s, c).value;
    var f := s.feeds[c.id];
    assert FeedOk(rt, s, c.id, f);
    var (g, payment) := SubmitToFeed(rt, f, s.now, c.who, c.round, c.value).value;
    SubmitToFeedKeeps(rt, f, s.now, c.who, c.round, c.value);
    SubmitToFeedAdvances(rt, f, s.now, c.who, c.round, c.value);
    SubmitEarns(rt, f, s.now, c.who, c.round, c.value);
    TraceSubmit(rt, f, s.now, c.who, c.round, c.value);
    SubmitKeepsLimits(rt, f, s.now, c.who, c.round, c.value);
    DebtIsATerm(rt, f, g, s'.feeds[c.id], s.now);
    FeedMoves(rt, s, c.id, s'.feeds[c.id], s');
    SubmitKeepsBooks(rt, s, c);
  }

  lemma SubmitKeepsLimits(rt: Runtime, f: FeedState, now: BlockNumber, oracle: AccountId, r: RoundId, value: Value)
    requires SubmitToFeed(rt, f, now, oracle, r, value).Ok?
    ensures SameLimits(f.config, SubmitToFeed(rt, f, now, oracle, r, value).value.0.config)
  {
    hide EnsureValidRound, OpenIfEligible, Accept;
    OpenKeepsTerms(rt, f, now, oracle, r);
    AcceptKeepsTerms(rt, OpenIfEligible(rt, f, now, oracle, r).value, now, oracle, r, value);
  }

  lemma DebtIsATerm(rt: Runtime, f: FeedState, g: FeedState, h: FeedState, now: BlockNumber)
    requires FeedInv(rt, g) && Advances(f, g) && TraceOk(rt, g, now) && h == g.(config := g.config.(debt := h.config.debt))
    ensures FeedInv(rt, h) && Advances(f, h) && TraceOk(rt, h, now)
  {
    TraceFrame(rt, g, h, now, now);
    hide TraceOk;
    TermsKeep(rt, g, h);
    SameRoundsAdvance(g, h);
    assert WindowOk(h);
    hide WindowOk, FeedInv, Advances;
    AdvancesTransitive(f, g, h);
  }

  lemma ChangeOraclesKeeps(rt: Runtime, s: State, c: Call)
    requires c.ChangeOracles? && Inv(rt, s) && ChangeOraclesStep(rt, s, c).Ok?
    ensures var s' := ChangeOraclesStep(rt, s, c).value; Inv(rt, s') && Evolves(s, s')
  {
    hide FeedInv, BooksOk, TraceOk;
    var f := s.feeds[c.id];
    var s' := ChangeOraclesStep(rt, s, c).value;
    assert FeedOk(rt, s, c.id, f);
    var reduced := DisableOracles(f, c.toDisable).value;
    DisableOraclesKeeps(rt, f, c.toDisable);
    DisablingKeepsKeys(f.statuses, f.config.reportingRound, c.toDisable);
    AddOraclesKeeps(rt, reduced, s.oracles, c.toAdd);
    EnablingKeepsBalances(reduced.statuses, s.oracles, f.config.reportingRound, c.toAdd);
    var g := s'.feeds[c.id];
    SameRoundsAdvance(f, g);
    TraceFrame(rt, f, g, s.now, s.now);
    hide Advances;
    FeedMoves(rt, s, c.id, g, s');
    NeutralUpdate(s, c.id, g, s');
  }

  lemma {:induction false} DisablingKeepsKeys(statuses: map<AccountId, OracleStatus>, reporting: RoundId, toDisable: seq<AccountId>)
    requires DisableEach(statuses, reporting, toDisable).Ok?
    ensures DisableEach(statuses, reporting, toDisable).value.Keys == statuses.Keys
    decreases |toDisable|
  {
    if toDisable != [] {
      DisablingKeepsKeys(DisableOne(statuses, reporting, toDisable[0]).value, reporting, toDisable[1..]);
    }
  }

  lemma UpdateRoundsKeeps(rt: Runtime, s: State, c: Call)
    requires c.UpdateRounds? && Inv(rt, s) && UpdateRoundsStep(s, c).Ok?
    ensures var s' := UpdateRoundsStep(s, c).value; Inv(rt, s') && Evolves(s, s')
  {
    hide Inv, Evolves;
    TermsChange(rt, s, c.id, UpdateFutureRounds(s.feeds[c.id], c.payment, c.bounds, c.restartDelay, c.timeout).value);
  }

  /** Requester permissions and the feed's owner are not part of the invariant. */
  lemma RequestersChange(rt: Runtime, s: State, id: FeedId, g: FeedState)
    requires Inv(rt, s) && id in s.feeds
    requires g == s.feeds[id].(requesters := g.requesters, config := s.feeds[id].config.(owner := g.config.owner))
    ensures Inv(rt, WithFeed(s, id, g)) && Evolves(s, WithFeed(s, id, g))
  {
    assert FeedOk(rt, s, id, s.feeds[id]);
    hide BooksOk, Evolves;
    TermsChange(rt, s, id, g);
  }

  lemma RequesterPermissionsKeep(rt: Runtime, s: State, c: Call)
    requires Inv(rt, s) && (c.SetRequester? || c.RemoveRequester?)
    requires var r := if c.SetRequester? then SetRequesterStep(s, c) else RemoveRequesterStep(s, c); r.Ok?
    ensures var r := if c.SetRequester? then SetRequesterStep(s, c) else RemoveRequesterStep(s, c);
            Inv(rt, r.value) && Evolves(s, r.value)
  {
    hide Inv, Evolves;
    var r := if c.SetRequester? then SetRequesterStep(s, c) else RemoveRequesterStep(s, c);
    RequestersChange(rt, s, c.id, r.value.feeds[c.id]);
  }

  lemma RequestViaKeeps(rt: Runtime, s: State, c: Call)
    requires c.RequestVia? && Inv(rt, s) && RequestViaStep(rt, s, c).Ok?
    ensures var s' := RequestViaStep(rt, s, c).value; Inv(rt, s') && Evolves(s, s')
  {
    hide Inv, Evolves, RequestRound;
    RequestKeeps(rt, s, c.id, c.who);
  }

  lemma RequestKeeps(rt: Runtime, s: State, id: FeedId, who: AccountId)
    requires Inv(rt, s) && id in s.feeds && RequestRound(rt, s.feeds[id], s.now, who).Ok?
    ensures var s' := WithFeed(s, id, RequestRound(rt, s.feeds[id], s.now, who).value); Inv(rt, s') && Evolves(s, s')
  {
    hide FeedInv, BooksOk, Advances, TraceOk, RequestRound;
    var f := s.feeds[id];
    assert FeedOk(rt, s, id, f);
    var g := RequestRound(rt, f, s.now, who).value;
    RequestRoundKeeps(rt, f, s.now, who);
    RequestRoundAdvances(rt, f, s.now, who);
    RequestEarnsNothing(rt, f, s.now, who, 0);
    TraceRequest(rt, f, s.now, who);
    RequestKeepsLimits(rt, f, s.now, who);
    FeedMoves(rt, s, id, g, WithFeed(s, id, g));
    NeutralUpdate(s, id, g, WithFeed(s, id, g));
  }

  lemma RequestKeepsLimits(rt: Runtime, f: FeedState, now: BlockNumber, who: AccountId)
    requires RequestRound(rt, f, now, who).Ok?
    ensures SameLimits(f.config, RequestRound(rt, f, now, who).value.config)
  {
  }

  lemma RequestNewRoundKeeps(rt: Runtime, s: State, c: Call)
    requires c.RequestNewRound? && Inv(rt, s) && RequestNewRoundStep(rt, s, c).Ok?
    ensures var s' := RequestNewRoundStep(rt, s, c).value; Inv(rt, s') && Evolves(s, s')
  {
    hide Inv, Evolves, RequestRound, WindowOk;
    var noted := TakeTurn(s.feeds[c.id], c.who).value;
    var t := WithFeed(s, c.id, noted);
    RequestersChange(rt, s, c.id, noted);
    RequestKeeps(rt, t, c.id, c.who);
    var s' := RequestNewRoundStep(rt, s, c).value;
    assert s'.feeds == WithFeed(t, c.id, RequestRound(rt, noted, s.now, c.who).value).feeds;
    FeedsWindowOk(rt, s');
    EvolvesTransitive(rt, s, t, s');
  }

  lemma FeedsWindowOk(rt: Runtime, s: State)
    requires Inv(rt, s)
    ensures forall id :: id in s.feeds ==> WindowOk(s.feeds[id])
  {
  }

  lemma EvolvesTransitive(rt: Runtime, s: State, t: State, u: State)
    requires Evolves(s, t) && Evolves(t, u) && (forall id :: id in u.feeds ==> WindowOk(u.feeds[id]))
    ensures Evolves(s, u)
  {
    hide Advances, WindowOk;
    forall id | id in s.feeds ensures id in u.feeds && Advances(s.feeds[id], u.feeds[id]) {
      AdvancesTransitive(s.feeds[id], t.feeds[id], u.feeds[id]);
    }
  }

  lemma ReduceDebtKeeps(rt: Runtime, s: State, c: Call)
    requires c.ReduceDebt? && Inv(rt, s) && ReduceDebtStep(s, c).Ok?
    ensures var s' := ReduceDebtStep(s, c).value; Inv(rt, s') && Evolves(s, s')
  {
    hide FeedInv, BooksOk, Advances, TraceOk;
    var f := s.feeds[c.id];
    var s' := ReduceDebtStep(s, c).value;
    assert FeedOk(rt, s, c.id, f);
    SameRoundsAdvance(f, f);
    DebtIsATerm(rt, f, f, s'.feeds[c.id], s.now);
    FeedMoves(rt, s, c.id, s'.feeds[c.id], s');
    ReduceDebtKeepsBooks(s, c);
  }

  /** Calls that touch no feed. */
  lemma OutsideFeedsKeeps(rt: Runtime, s: State, s': State)
    requires RuntimeOk(rt) && FeedsOk(rt, s) && s'.feeds == s.feeds && s'.feedCounter == s.feedCounter
    requires s'.oracles.Keys == s.oracles.Keys && s.now <= s'.now
    ensures FeedsOk(rt, s') && Evolves(s, s')
  {
    hide FeedInv, Advances, TraceOk;
    UnchangedEvolves(s, s');
    forall id | id in s'.feeds ensures FeedOk(rt, s', id, s'.feeds[id]) {
      assert FeedOk(rt, s, id, s.feeds[id]);
      TraceFrame(rt, s.feeds[id], s.feeds[id], s.now, s'.now);
    }
  }

  lemma SameBooks(s: State, s': State)
    requires BooksOk(s) && s'.feeds == s.feeds && s'.ledger == s.ledger && s'.fund.reserved == s.fund.reserved
    requires s'.oracles.Keys == s.oracles.Keys
    requires forall o :: o in s.oracles ==> s'.oracles[o].withdrawable == s.oracles[o].withdrawable
    ensures BooksOk(s')
  {
    assert Withdrawables(s'.oracles) == Withdrawables(s.oracles);
    forall o: AccountId ensures AccountedFor(s', o) {
      assert AccountedFor(s, o);
    }
  }

  lemma AdministeredKeeps(rt: Runtime, s: State, c: Call)
    requires Inv(rt, s)
    ensures Inv(rt, Administered(s, c)) && Evolves(s, Administered(s, c))
  {
    hide FeedInv, BooksOk, Advances, TraceOk;
    var s' := Administered(s, c);
    if c.OwnerChanged? && c.id in s.feeds {
      RequestersChange(rt, s, c.id, s'.feeds[c.id]);
    } else {
      OutsideFeedsKeeps(rt, s, s');
      SameBooks(s, s');
    }
  }

  lemma WithdrawPaymentKeeps(rt: Runtime, s: State, c: Call)
    requires c.WithdrawPayment? && Inv(rt, s)
    ensures var s' := WithdrawPaymentStep(rt, s, c).state; Inv(rt, s') && Evolves(s, s')
  {
    hide FeedInv, BooksOk, Advances, TraceOk;
    OutsideFeedsKeeps(rt, s, WithdrawPaymentStep(rt, s, c).state);
    WithdrawalKeepsBooks(rt, s, c);
  }

  lemma WithdrawFundsKeeps(rt: Runtime, s: State, c: Call)
    requires c.WithdrawFunds? && Inv(rt, s) && WithdrawFundsStep(rt, s, c).Ok?
    ensures var s' := WithdrawFundsStep(rt, s, c).value; Inv(rt, s') && Evolves(s, s')
  {
    hide FeedInv, BooksOk, Advances, TraceOk;
    var s' := WithdrawFundsStep(rt, s, c).value;
    OutsideFeedsKeeps(rt, s, s');
    SameBooks(s, s');
  }

  // --- one step, all steps ---

  /** Every call keeps the invariant and moves every feed forward. */
  lemma StepKeeps(rt: Runtime, s: State, c: Call)
    requires Inv(rt, s) && InRange(s, c)
    ensures Inv(rt, Step(rt, s, c).state) && Evolves(s, Step(rt, s, c).state)
  {
    hide Inv, Evolves, InRange, CreateFeedStep, SetPruningWindowStep, SubmitStep, ChangeOraclesStep, UpdateRoundsStep,
      SetRequesterStep, RemoveRequesterStep, RequestNewRoundStep, RequestViaStep, WithdrawPaymentStep, WithdrawFundsStep,
      ReduceDebtStep, Administered;
    UnchangedEvolves(s, s);
    match c
    case CreateFeed(_, _, _, _, _, _, _, _, _, _, _) =>
      if CreateFeedStep(rt, s, c).Ok? { CreateFeedKeeps(rt, s, c); }
    case SetPruningWindow(_, _, _) =>
      if SetPruningWindowStep(s, c).Ok? { SetPruningWindowKeeps(rt, s, c); }
    case Submit(_, _, _, _, _) =>
      if SubmitStep(rt, s, c).Ok? { SubmitKeeps(rt, s, c); }
    case ChangeOracles(_, _, _, _) =>
      if ChangeOraclesStep(rt, s, c).Ok? { ChangeOraclesKeeps(rt, s, c); }
    case UpdateRounds(_, _, _, _, _, _) =>
      if UpdateRoundsStep(s, c).Ok? { UpdateRoundsKeeps(rt, s, c); }
    case SetRequester(_, _, _, _) =>
      if SetRequesterStep(s, c).Ok? { RequesterPermissionsKeep(rt, s, c); }
    case RemoveRequester(_, _, _) =>
      if RemoveRequesterStep(s, c).Ok? { RequesterPermissionsKeep(rt, s, c); }
    case RequestNewRound(_, _) =>
      if RequestNewRoundStep(rt, s, c).Ok? { RequestNewRoundKeeps(rt, s, c); }
    case RequestVia(_, _) =>
      if RequestViaStep(rt, s, c).Ok? { RequestViaKeeps(rt, s, c); }
    case WithdrawPayment(_, _, _, _, _) =>
      WithdrawPaymentKeeps(rt, s, c);
    case WithdrawFunds(_, _, _, _) =>
      if WithdrawFundsStep(rt, s, c).Ok? { WithdrawFundsKeeps(rt, s, c); }
    case ReduceDebt(_, _, _, _) =>
      if ReduceDebtStep(s, c).Ok? { ReduceDebtKeeps(rt, s, c); }
    case _ =>
      AdministeredKeeps(rt, s, c);
  }

  /** All calls of the run are in range when they are made. */
  ghost predicate RunInRange(rt: Runtime, s: State, calls: seq<Call>)
    decreases |calls|
  {
    calls != [] ==> InRange(s, calls[0]) && RunInRange(rt, Step(rt, s, calls[0]).state, calls[1..])
  }

  lemma {:induction false} RunKeeps(rt: Runtime, s: State, calls: seq<Call>)
    requires Inv(rt, s) && RunInRange(rt, s, calls)
    ensures Inv(rt, Execute(rt, s, calls)) && Evolves(s, Execute(rt, s, calls))
    decreases |calls|
  {
    hide Inv, Evolves, Step, InRange;
    if calls == [] {
      UnchangedEvolves(s, s);
    } else {
      var t := Step(rt, s, calls[0]).state;
      StepKeeps(rt, s, calls[0]);
      RunKeeps(rt, t, calls[1..]);
      FeedsWindowOk(rt, Execute(rt, s, calls));
      EvolvesTransitive(rt, s, t, Execute(rt, s, calls));
    }
  }

  /** A state some run from some genesis leads to. */
  ghost predicate Reachable(rt: Runtime, s: State) {
    exists admin, creators, free, now, calls: seq<Call> ::
      RunInRange(rt, Genesis(admin, creators, free, now), calls)
      && s == Execute(rt, Genesis(admin, creators, free, now), calls)
  }

  lemma GenesisIsReachable(rt: Runtime, admin: AccountId, creators: set<AccountId>, free: Balance, now: BlockNumber)
    ensures Reachable(rt, Genesis(admin, creators, free, now))
  {
    var g := Genesis(admin, creators, free, now);
    assert RunInRange(rt, g, []) && Execute(rt, g, []) == g;
  }

  lemma {:induction false} RunThen(rt: Runtime, s: State, calls: seq<Call>, c: Call)
    requires RunInRange(rt, s, calls) && InRange(Execute(rt, s, calls), c)
    ensures RunInRange(rt, s, calls + [c]) && Execute(rt, s, calls + [c]) == Step(rt, Execute(rt, s, calls), c).state
    decreases |calls|
  {
    hide Step, InRange;
    if calls == [] {
      assert calls + [c] == [c] && [c][1..] == [];
    } else {
      RunThen(rt, Step(rt, s, calls[0]).state, calls[1..], c);
      assert (calls + [c])[1..] == calls[1..] + [c];
    }
  }

  /** Reachable states are closed under calls. */
  lemma ReachableThen(rt: Runtime, s: State, c: Call)
    requires Reachable(rt, s) && InRange(s, c)
    ensures Reachable(rt, Step(rt, s, c).state)
  {
    hide Step, InRange, RunInRange, Execute;
    var admin, creators, free, now, calls :|
      RunInRange(rt, Genesis(admin, creators, free, now), calls)
      && s == Execute(rt, Genesis(admin, creators, free, now), calls);
    RunThen(rt, Genesis(admin, creators, free, now), calls, c);
  }

  lemma {:induction false} ReachableRun(rt: Runtime, s: State, calls: seq<Call>)
    requires Reachable(rt, s) && RunInRange(rt, s, calls)
    ensures Reachable(rt, Execute(rt, s, calls))
    decreases |calls|
  {
    hide Reachable, Step, InRange;
    if calls != [] {
      ReachableThen(rt, s, calls[0]);
      ReachableRun(rt, Step(rt, s, calls[0]).state, calls[1..]);
    }
  }

  lemma ReachableInv(rt: Runtime, s: State)
    requires RuntimeOk(rt) && Reachable(rt, s)
    ensures Inv(rt, s)
  {
    hide Inv, Evolves;
    var admin, creators, free, now, calls :|
      RunInRange(rt, Genesis(admin, creators, free, now), calls)
      && s == Execute(rt, Genesis(admin, creators, free, now), calls);
    GenesisInv(rt, admin, creators, free, now);
    RunKeeps(rt, Genesis(admin, creators, free, now), calls);
  }
}
