/** When the next round can be opened, and what a pruning window of one does to that. */
module Stalls {
  import opened Types
  import opened Feeds
  import opened FeedInvariant
  import opened RoundSteps
  import opened FeedSteps
  import opened Pallets
  import opened Ledgers
  import opened Runs
  import opened Consumers
  import opened Oracles
  import opened Money
  import opened Origins

  /** The reporting round has to be closed as timed out, but the round to carry over from is pruned. */
  ghost predicate Stalled(rt: Runtime, f: FeedState, now: BlockNumber) {
    IsTimedOut(rt, f, now, f.config.reportingRound) && Previous(f.config.reportingRound) !in f.rounds
  }

  /** `Feed::request_new_round` succeeds exactly when the current round is supersedable and not stalled. */
  lemma RequestSucceedsIff(rt: Runtime, f: FeedState, now: BlockNumber, requester: AccountId)
    ensures var r := f.config.reportingRound;
            RequestRound(rt, f, now, requester).Ok?
            <==> r < U32_MAX && IsSupersedable(rt, f, now, r) && !Stalled(rt, f, now)
  {
  }

  /** The requester may start the round after the reporting one. */
  ghost predicate MayRequest(f: FeedState, who: AccountId) {
    && who in f.requesters
    && var q := f.requesters[who];
       && q.lastStartedRound.GetOr(0) + q.delay <= U32_MAX
       && (q.lastStartedRound.Some? ==> q.lastStartedRound.value + q.delay <= f.config.reportingRound)
  }

  lemma TakeTurnIff(f: FeedState, who: AccountId)
    requires who in f.requesters && f.config.reportingRound < U32_MAX
    ensures TakeTurn(f, who).Ok? <==> MayRequest(f, who)
    ensures TakeTurn(f, who).Ok? ==> TakeTurn(f, who).value == f.(requesters := TakeTurn(f, who).value.requesters)
  {
  }

  /** The `request_new_round` extrinsic succeeds exactly for a requester in turn, on a supersedable round, without a stall. */
  lemma RequestExtrinsicIff(rt: Runtime, s: State, id: FeedId, who: AccountId)
    requires id in s.feeds
    ensures var f := s.feeds[id]; var r := f.config.reportingRound;
            Step(rt, s, RequestNewRound(who, id)).result.Ok?
            <==> MayRequest(f, who) && r < U32_MAX && IsSupersedable(rt, f, s.now, r) && !Stalled(rt, f, s.now)
  {
    hide RequestRound, Step, MayRequest, Stalled;
    var f := s.feeds[id];
    StepOf(rt, s, RequestNewRound(who, id));
    RequestSucceedsIff(rt, f, s.now, who);
    MayRequestIsRequester(f, who);
    if who in f.requesters && f.config.reportingRound < U32_MAX {
      TakeTurnIff(f, who);
      if TakeTurn(f, who).Ok? {
        RequestIgnoresRequesters(rt, f, TakeTurn(f, who).value, s.now, who);
      }
    }
  }

  lemma MayRequestIsRequester(f: FeedState, who: AccountId)
    ensures MayRequest(f, who) ==> who in f.requesters
  {
  }

  lemma RequestIgnoresRequesters(rt: Runtime, f: FeedState, g: FeedState, now: BlockNumber, who: AccountId)
    requires g == f.(requesters := g.requesters)
    ensures RequestRound(rt, f, now, who).Ok? <==> RequestRound(rt, g, now, who).Ok?
  {
  }

  /** The round before the reporting one passes the superseding check exactly when it is still stored. */
  lemma SupersedingCheckIff(rt: Runtime, s: State, id: FeedId)
    requires RuntimeOk(rt) && Reachable(rt, s) && id in s.feeds && s.feeds[id].config.reportingRound >= 1
    ensures var f := s.feeds[id]; var r := f.config.reportingRound;
            IsSupersedable(rt, f, s.now, r - 1) <==> r == 1 || r - 1 in f.rounds
  {
    hide Reachable;
    ReachableFeed(rt, s, id);
    var f := s.feeds[id];
    var p: RoundId := f.config.reportingRound - 1;
    assert p in f.rounds ==> Answered(f.rounds[p]);
  }

  // --- somebody can start, and the whole submission goes through ---

  lemma OpeningSucceeds(rt: Runtime, f: FeedState, now: BlockNumber, o: AccountId)
    requires WindowOk(f) && f.config.reportingRound < U32_MAX
    requires CanStartNext(rt, f, now, o) && !Stalled(rt, f, now)
    ensures var g := OpenIfEligible(rt, f, now, o, f.config.reportingRound + 1);
            && g.Ok? && f.config.reportingRound + 1 in g.value.details
            && g.value.details[f.config.reportingRound + 1].payment == f.config.payment
            && g.value.config == f.config.(reportingRound := f.config.reportingRound + 1)
  {
  }

  lemma StartingSubmissionSucceeds(rt: Runtime, f: FeedState, now: BlockNumber, o: AccountId, value: Value)
    requires FeedInv(rt, f) && f.config.reportingRound < U32_MAX
    requires CanStartNext(rt, f, now, o) && !Stalled(rt, f, now) && InBounds(f.config, value)
    ensures var g := SubmitToFeed(rt, f, now, o, f.config.reportingRound + 1, value);
            && g.Ok? && g.value.1 == f.config.payment
            && g.value.0.config.debt == f.config.debt && g.value.0.config.maxDebt == f.config.maxDebt
  {
    hide FeedInv, CountersOk, WindowOk, OpenOk, EnsureValidRound, Stalled, OpenIfEligible, Accepting, Accept, MayStart;
    var n: RoundId := f.config.reportingRound + 1;
    assert o in f.statuses by { CanStartIsOracle(rt, f, now, o); }
    PartsOf(rt, f);
    OpeningSucceeds(rt, f, now, o);
    OpenIfEligibleKeeps(rt, f, now, o, n);
    AcceptingAfterOpen(rt, f, now, o, n);
    var g := OpenIfEligible(rt, f, now, o, n).value;
    OpenIfEligibleKeepsBounds(rt, f, now, o, n, value);
    AcceptKeeps(rt, g, now, o, n, value);
    AcceptKeepsTerms(rt, g, now, o, n, value);
  }

  lemma CanStartIsOracle(rt: Runtime, f: FeedState, now: BlockNumber, o: AccountId)
    requires f.config.reportingRound < U32_MAX && CanStartNext(rt, f, now, o)
    ensures o in f.statuses
  {
  }

  lemma FundedSubmissionSucceeds(rt: Runtime, s: State, id: FeedId, o: AccountId, r: RoundId, value: Value, refused: bool)
    requires id in s.feeds && o in s.oracles && s.oracles[o].withdrawable + s.feeds[id].config.payment <= rt.balanceMax
    requires Payable(rt, s.fund, s.feeds[id].config, s.feeds[id].config.payment, refused)
    requires var g := SubmitToFeed(rt, s.feeds[id], s.now, o, r, value);
             && g.Ok? && g.value.1 == s.feeds[id].config.payment
             && g.value.0.config.debt == s.feeds[id].config.debt && g.value.0.config.maxDebt == s.feeds[id].config.maxDebt
    ensures Step(rt, s, Submit(o, id, r, value, refused)).result.Ok?
  {
  }

  /**
   In every reachable state with a supersedable reporting round and a restart delay
   below the oracle count, some enabled oracle's submission to the next round succeeds.
   */
  lemma SomebodyCanStart(rt: Runtime, s: State, id: FeedId, value: Value, refused: bool)
    requires RuntimeOk(rt) && Reachable(rt, s) && id in s.feeds
    requires var f := s.feeds[id];
             && IsSupersedable(rt, f, s.now, f.config.reportingRound) && !Stalled(rt, f, s.now)
             && f.config.restartDelay < f.config.oracleCount && f.config.reportingRound < U32_MAX
             && InBounds(f.config, value) && Payable(rt, s.fund, f.config, f.config.payment, refused)
    requires forall o :: o in EnabledOracles(s.feeds[id].statuses) && o in s.oracles ==>
               s.oracles[o].withdrawable + s.feeds[id].config.payment <= rt.balanceMax
    ensures exists o :: o in EnabledOracles(s.feeds[id].statuses)
              && Step(rt, s, Submit(o, id, s.feeds[id].config.reportingRound + 1, value, refused)).result.Ok?
  {
    hide Reachable, BooksOk, RoundSide, SubmissionsOk, CountsOk, OpeningsOk, StatusesOk, OracleCountOk, Stalled,
      IsSupersedable, CanStartNext, SubmitToFeed, Step, Payable, InBounds;
    ReachableInv(rt, s);
    var f := s.feeds[id];
    assert FeedOk(rt, s, id, f);
    SomebodyIsEligible(rt, s, id);
    var o :| o in EnabledOracles(f.statuses) && CanStartNext(rt, f, s.now, o);
    StartingSubmissionSucceeds(rt, f, s.now, o, value);
    FundedSubmissionSucceeds(rt, s, id, o, f.config.reportingRound + 1, value, refused);
  }

  // --- a window of at least two never stalls ---

  ghost predicate Wide(c: FeedConfig) {
    c.pruningWindow >= 2 && (c.nextRoundToPrune == 1 || c.nextRoundToPrune < c.latestRound)
  }

  lemma WideNeverStalls(rt: Runtime, f: FeedState, now: BlockNumber)
    requires FeedInv(rt, f) && Wide(f.config)
    ensures !Stalled(rt, f, now)
    ensures f.config.reportingRound >= 1 ==> IsSupersedable(rt, f, now, Previous(f.config.reportingRound))
  {
    hide ProvenanceOk, CarryOk, OpenOk, OracleSide;
    var r := f.config.reportingRound;
    assert r >= 2 ==> InWindow(f.config, Previous(r));
    assert 0 in f.rounds;
  }

  lemma WideOpenIfEligible(rt: Runtime, f: FeedState, now: BlockNumber, oracle: AccountId, r: RoundId)
    requires Wide(f.config) && oracle in f.statuses && OpenIfEligible(rt, f, now, oracle, r).Ok?
    ensures Wide(OpenIfEligible(rt, f, now, oracle, r).value.config)
  {
  }

  lemma WideAcceptLater(rt: Runtime, f: FeedState, now: BlockNumber, oracle: AccountId, r: RoundId, value: Value)
    requires Wide(f.config) && f.config.latestRound <= r && oracle in f.statuses && Accept(rt, f, now, oracle, r, value).Ok?
    ensures Wide(Accept(rt, f, now, oracle, r, value).value.config)
  {
  }

  lemma AcceptingIsLater(f: FeedState, oracle: AccountId, r: RoundId)
    requires CountersOk(f.config) && WindowOk(f) && Accepting(f, oracle, r)
    ensures f.config.latestRound <= r && oracle in f.statuses
  {
  }

  lemma WideSubmit(rt: Runtime, f: FeedState, now: BlockNumber, oracle: AccountId, r: RoundId, value: Value)
    requires FeedInv(rt, f) && !Reopens(f, oracle, r) && Wide(f.config) && SubmitToFeed(rt, f, now, oracle, r, value).Ok?
    ensures Wide(SubmitToFeed(rt, f, now, oracle, r, value).value.0.config)
  {
    hide FeedInv, CountersOk, WindowOk, OpenOk, EnsureValidRound, OpenIfEligible, Wide, Accepting, Accept;
    PartsOf(rt, f);
    WideOpenIfEligible(rt, f, now, oracle, r);
    OpenIfEligibleKeeps(rt, f, now, oracle, r);
    AcceptingInOpened(rt, f, now, oracle, r, value);
    var g := OpenIfEligible(rt, f, now, oracle, r).value;
    PartsOf(rt, g);
    AcceptingIsLater(g, oracle, r);
    WideAcceptLater(rt, g, now, oracle, r, value);
  }

  /** The rounds, details and history are the same, and so are the counters. */
  ghost predicate SameRounds(f: FeedState, g: FeedState) {
    && g.rounds == f.rounds && g.details == f.details && g.history == f.history
    && g.config.reportingRound == f.config.reportingRound
    && SameWindow(f.config, g.config)
  }

  ghost predicate SameWindow(c: FeedConfig, d: FeedConfig) {
    d.latestRound == c.latestRound && d.nextRoundToPrune == c.nextRoundToPrune
  }

  ghost predicate Quiet(c: Call) {
    !c.Submit? && !c.SetPruningWindow? && !c.RequestNewRound? && !c.RequestVia? && !c.CreateFeed?
  }

  lemma OracleChangesKeepRounds(rt: Runtime, s: State, c: Call, id: FeedId)
    requires c.ChangeOracles? && ChangeOraclesStep(rt, s, c).Ok? && id in s.feeds
    ensures var s' := ChangeOraclesStep(rt, s, c).value;
            && s'.feeds.Keys == s.feeds.Keys && SameRounds(s.feeds[id], s'.feeds[id])
            && s'.feeds[id].config.pruningWindow == s.feeds[id].config.pruningWindow
  {
  }

  /** Calls other than submissions, requests, creation and pruning leave every feed's rounds alone. */
  lemma QuietCallsKeepRounds(rt: Runtime, s: State, c: Call, id: FeedId)
    requires Quiet(c) && id in s.feeds
    ensures var s' := Step(rt, s, c).state;
            && s'.feeds.Keys == s.feeds.Keys && SameRounds(s.feeds[id], s'.feeds[id])
            && s'.feeds[id].config.pruningWindow == s.feeds[id].config.pruningWindow
  {
    hide ChangeOraclesStep;
    if c.ChangeOracles? && ChangeOraclesStep(rt, s, c).Ok? {
      OracleChangesKeepRounds(rt, s, c, id);
    }
  }

  lemma RequestsKeepWindow(rt: Runtime, s: State, c: Call, id: FeedId)
    requires (c.RequestNewRound? || c.RequestVia?) && id in s.feeds
    ensures var s' := Step(rt, s, c).state;
            && s'.feeds.Keys == s.feeds.Keys && SameWindow(s.feeds[id].config, s'.feeds[id].config)
            && s'.feeds[id].config.pruningWindow == s.feeds[id].config.pruningWindow
  {
    forall f: FeedState, now: BlockNumber, who: AccountId | RequestRound(rt, f, now, who).Ok?
      ensures SameWindow(f.config, RequestRound(rt, f, now, who).value.config)
           && RequestRound(rt, f, now, who).value.config.pruningWindow == f.config.pruningWindow
    {
    }
    hide RequestRound;
  }

  lemma CreationIsWide(rt: Runtime, s: State, c: Call)
    requires c.CreateFeed? && CreateFeedStep(rt, s, c).Ok?
    ensures var s' := CreateFeedStep(rt, s, c).value;
            && s'.feeds == s.feeds[s.feedCounter := s'.feeds[s.feedCounter]]
            && (s'.feeds[s.feedCounter].config.pruningWindow >= 2 ==> Wide(s'.feeds[s.feedCounter].config))
  {
  }

  lemma PruningStaysWide(s: State, c: Call, id: FeedId)
    requires c.SetPruningWindow? && SetPruningWindowStep(s, c).Ok? && id in s.feeds && Wide(s.feeds[id].config)
    ensures var s' := SetPruningWindowStep(s, c).value;
            s'.feeds.Keys == s.feeds.Keys && (s'.feeds[id].config.pruningWindow >= 2 ==> Wide(s'.feeds[id].config))
  {
  }

  lemma StepKeepsFeedWide(rt: Runtime, s: State, c: Call, id: FeedId)
    requires Inv(rt, s) && InRange(s, c) && id in s.feeds && Wide(s.feeds[id].config)
    ensures var s' := Step(rt, s, c).state;
            id in s'.feeds && (s'.feeds[id].config.pruningWindow >= 2 ==> Wide(s'.feeds[id].config))
  {
    hide Inv, FeedInv, Wide, InRange, CreateFeedStep, SubmitStep, SetPruningWindowStep;
    InvFeed(rt, s, id);
    StepOf(rt, s, c);
    hide Step;
    if c.Submit? {
      if SubmitStep(rt, s, c).Ok? { SubmitKeepsWide(rt, s, c, id); }
    } else if c.CreateFeed? {
      if CreateFeedStep(rt, s, c).Ok? { CreationIsWide(rt, s, c); }
    } else if c.SetPruningWindow? {
      if SetPruningWindowStep(s, c).Ok? { PruningStaysWide(s, c, id); }
    } else {
      if c.RequestNewRound? || c.RequestVia? {
        RequestsKeepWindow(rt, s, c, id);
      } else {
        QuietCallsKeepRounds(rt, s, c, id);
      }
      SameWindowIsWide(s.feeds[id].config, Step(rt, s, c).state.feeds[id].config);
    }
  }

  lemma SameWindowIsWide(c: FeedConfig, d: FeedConfig)
    requires Wide(c) && SameWindow(c, d) && d.pruningWindow == c.pruningWindow
    ensures Wide(d)
  {
  }

  lemma FeedsAreCreated(rt: Runtime, s: State, c: Call, id: FeedId)
    requires id !in s.feeds && id in Step(rt, s, c).state.feeds
    ensures c.CreateFeed? && CreateFeedStep(rt, s, c).Ok? && id == s.feedCounter
  {
    hide AddOracles, UpdateFutureRounds, SubmitToFeed, RequestRound, DisableOracles, PrunedToWindow, TakeTurn;
  }

  lemma StepKeepsWide(rt: Runtime, s: State, c: Call, id: FeedId)
    requires Inv(rt, s) && InRange(s, c) && (id in s.feeds ==> Wide(s.feeds[id].config))
    ensures var s' := Step(rt, s, c).state;
            id in s'.feeds && s'.feeds[id].config.pruningWindow >= 2 ==> Wide(s'.feeds[id].config)
  {
    hide Inv, InRange, CreateFeedStep, Wide, Step;
    if id in s.feeds {
      StepKeepsFeedWide(rt, s, c, id);
    } else if id in Step(rt, s, c).state.feeds {
      FeedsAreCreated(rt, s, c, id);
      StepOf(rt, s, c);
      CreationIsWide(rt, s, c);
    }
  }

  lemma SubmitTouchesOne(rt: Runtime, s: State, c: Call)
    requires c.Submit? && SubmitStep(rt, s, c).Ok?
    ensures SubmitStep(rt, s, c).value.feeds.Keys == s.feeds.Keys && c.id in s.feeds
    ensures forall id :: id in s.feeds && id != c.id ==> SubmitStep(rt, s, c).value.feeds[id] == s.feeds[id]
  {
  }

  lemma SubmitKeepsWide(rt: Runtime, s: State, c: Call, id: FeedId)
    requires c.Submit? && SubmitStep(rt, s, c).Ok? && id in s.feeds && FeedInv(rt, s.feeds[id]) && InRange(s, c)
    requires Wide(s.feeds[id].config)
    ensures id in SubmitStep(rt, s, c).value.feeds && Wide(SubmitStep(rt, s, c).value.feeds[id].config)
  {
    hide FeedInv, SubmitToFeed;
    SubmitTouchesOne(rt, s, c);
    if id == c.id {
      WideSubmit(rt, s.feeds[c.id], s.now, c.who, c.round, c.value);
    }
  }

  /** From creation on, the pruning window of feed `id` is at least two in every state of the run. */
  ghost predicate AlwaysWide(rt: Runtime, s: State, calls: seq<Call>, id: FeedId)
    decreases |calls|
  {
    && (id in s.feeds ==> s.feeds[id].config.pruningWindow >= 2)
    && (calls != [] ==> AlwaysWide(rt, Step(rt, s, calls[0]).state, calls[1..], id))
  }

  lemma {:induction false} RunKeepsWide(rt: Runtime, s: State, calls: seq<Call>, id: FeedId)
    requires Inv(rt, s) && RunInRange(rt, s, calls) && AlwaysWide(rt, s, calls, id)
    requires id in s.feeds ==> Wide(s.feeds[id].config)
    ensures var s' := Execute(rt, s, calls); id in s'.feeds ==> Wide(s'.feeds[id].config)
    decreases |calls|
  {
    hide Inv, Evolves, Step, InRange, Wide;
    if calls != [] {
      StepKeeps(rt, s, calls[0]);
      StepKeepsWide(rt, s, calls[0], id);
      RunKeepsWide(rt, Step(rt, s, calls[0]).state, calls[1..], id);
    }
  }

  /**
   A feed whose window has always been at least two, whatever happened to other feeds, is never stalled: a
   round can be requested exactly when an id is left and the current round is supersedable, and
   submitting to the current round never fails the superseding check.
   */
  lemma WideRunsNeverStall(
    rt: Runtime, admin: AccountId, creators: set<AccountId>, free: Balance, now: BlockNumber, calls: seq<Call>, id: FeedId,
    requester: AccountId)
    requires RuntimeOk(rt) && RunInRange(rt, Genesis(admin, creators, free, now), calls)
    requires AlwaysWide(rt, Genesis(admin, creators, free, now), calls, id)
    requires id in Execute(rt, Genesis(admin, creators, free, now), calls).feeds
    ensures var s := Execute(rt, Genesis(admin, creators, free, now), calls); var f := s.feeds[id];
            var r := f.config.reportingRound;
            && !Stalled(rt, f, s.now)
            && (RequestRound(rt, f, s.now, requester).Ok? <==> r < U32_MAX && IsSupersedable(rt, f, s.now, r))
            && (r >= 1 ==> IsSupersedable(rt, f, s.now, r - 1))
  {
    var g := Genesis(admin, creators, free, now);
    hide Execute, RunInRange, FeedInv, BooksOk, AlwaysWide, TraceOk, RequestRound;
    GenesisInv(rt, admin, creators, free, now);
    RunKeeps(rt, g, calls);
    RunKeepsWide(rt, g, calls, id);
    var s := Execute(rt, g, calls);
    assert FeedOk(rt, s, id, s.feeds[id]);
    WideNeverStalls(rt, s.feeds[id], s.now);
    RequestSucceedsIff(rt, s.feeds[id], s.now, requester);
  }

  // --- a stall is for ever ---

  lemma StalledFacts(rt: Runtime, f: FeedState, now: BlockNumber)
    requires CountersOk(f.config) && WindowOk(f) && Stalled(rt, f, now)
    ensures f.config.reportingRound >= 2 && WasUpdated(f, f.config.reportingRound)
    ensures f.config.nextRoundToPrune == f.config.latestRound == f.config.reportingRound
    ensures f.config.reportingRound - 1 !in f.rounds
  {
  }

  lemma StalledRejectsSubmissions(rt: Runtime, f: FeedState, now: BlockNumber, oracle: AccountId, r: RoundId, value: Value)
    requires CountersOk(f.config) && WindowOk(f) && Stalled(rt, f, now)
    ensures SubmitToFeed(rt, f, now, oracle, r, value).Err?
  {
    StalledFacts(rt, f, now);
    var reporting: int := f.config.reportingRound;
    if oracle in f.statuses && r == reporting + 1 {
      if MayStart(f, oracle, r) {
        assert OpenIfEligible(rt, f, now, oracle, r).Err?;
      } else {
        assert r !in f.details by { assert !InWindow(f.config, r); }
      }
    } else {
      assert EnsureValidRound(rt, f, now, oracle, r).Err?;
    }
  }

  lemma StalledFeedKeeps(rt: Runtime, f: FeedState, g: FeedState, now: BlockNumber, later: BlockNumber)
    requires Stalled(rt, f, now) && SameRounds(f, g) && now <= later
    ensures Stalled(rt, g, later)
  {
  }

  lemma StalledRejectsRequests(rt: Runtime, f: FeedState, now: BlockNumber, who: AccountId)
    requires CountersOk(f.config) && WindowOk(f) && Stalled(rt, f, now)
    ensures RequestRound(rt, f, now, who).Err?
  {
  }

  lemma StalledKeepsWindowOnPrune(f: FeedState, window: Window)
    requires f.config.nextRoundToPrune == f.config.latestRound
    ensures SameRounds(f, PrunedToWindow(f.(config := f.config.(pruningWindow := window))))
  {
  }

  lemma StalledKeepsRounds(rt: Runtime, s: State, c: Call, id: FeedId)
    requires id in s.feeds && CountersOk(s.feeds[id].config) && WindowOk(s.feeds[id])
    requires Stalled(rt, s.feeds[id], s.now) && id < s.feedCounter
    ensures var s' := Step(rt, s, c).state;
            id in s'.feeds && SameRounds(s.feeds[id], s'.feeds[id])
  {
    hide Stalled, CountersOk, WindowOk, SubmitToFeed, PrunedToWindow, AddOracles, UpdateFutureRounds, Step;
    var f := s.feeds[id];
    StepOf(rt, s, c);
    StalledFacts(rt, f, s.now);
    if c.Submit? {
      StalledRejectsSubmissions(rt, f, s.now, c.who, c.round, c.value);
    } else if c.SetPruningWindow? {
      if c.window > 0 {
        StalledKeepsWindowOnPrune(f, c.window);
      }
    } else if c.RequestNewRound? || c.RequestVia? {
      StalledKeepsOnRequest(rt, s, c, id);
    } else if !c.CreateFeed? {
      QuietCallsKeepRounds(rt, s, c, id);
    }
  }

  lemma StalledKeepsOnRequest(rt: Runtime, s: State, c: Call, id: FeedId)
    requires id in s.feeds && CountersOk(s.feeds[id].config) && WindowOk(s.feeds[id]) && Stalled(rt, s.feeds[id], s.now)
    requires c.RequestNewRound? || c.RequestVia?
    ensures var s' := Step(rt, s, c).state;
            id in s'.feeds && SameRounds(s.feeds[id], s'.feeds[id])
  {
    var f := s.feeds[id];
    if c.id == id {
      StalledRejectsRequests(rt, f, s.now, c.who);
      if c.RequestNewRound? && c.who in f.requesters && TakeTurn(f, c.who).Ok? {
        var noted := TakeTurn(f, c.who).value;
        assert forall r :: InWindow(noted.config, r) == InWindow(f.config, r);
        StalledRejectsRequests(rt, noted, s.now, c.who);
      }
    }
    hide RequestRound, Stalled, CountersOk, WindowOk;
  }

  lemma BlocksOnlyAdvance(rt: Runtime, s: State, c: Call)
    ensures s.now <= Step(rt, s, c).state.now
  {
    hide AddOracles, UpdateFutureRounds, SubmitToFeed, RequestRound, DisableOracles;
  }

  lemma StallOutlastsStep(rt: Runtime, s: State, c: Call, id: FeedId)
    requires id in s.feeds && FeedInv(rt, s.feeds[id]) && Stalled(rt, s.feeds[id], s.now) && id < s.feedCounter
    ensures var s' := Step(rt, s, c).state;
            id in s'.feeds && SameRounds(s.feeds[id], s'.feeds[id]) && Stalled(rt, s'.feeds[id], s'.now)
  {
    hide FeedInv, CountersOk, WindowOk, OpenOk, Step, Stalled;
    PartsOf(rt, s.feeds[id]);
    StalledKeepsRounds(rt, s, c, id);
    BlocksOnlyAdvance(rt, s, c);
    StalledFeedKeeps(rt, s.feeds[id], Step(rt, s, c).state.feeds[id], s.now, Step(rt, s, c).state.now);
  }

  lemma InvFeed(rt: Runtime, s: State, id: FeedId)
    requires Inv(rt, s) && id in s.feeds
    ensures FeedInv(rt, s.feeds[id]) && id < s.feedCounter
  {
    assert FeedOk(rt, s, id, s.feeds[id]);
  }

  lemma SameRoundsReflexive(f: FeedState)
    ensures SameRounds(f, f)
  {
  }

  lemma SameRoundsTransitive(f: FeedState, g: FeedState, h: FeedState)
    requires SameRounds(f, g) && SameRounds(g, h)
    ensures SameRounds(f, h)
  {
  }

  /** No run recovers a stalled feed: its rounds never change again. */
  lemma {:induction false} StallIsPermanent(rt: Runtime, s: State, calls: seq<Call>, id: FeedId)
    requires RuntimeOk(rt) && Inv(rt, s) && RunInRange(rt, s, calls) && id in s.feeds && Stalled(rt, s.feeds[id], s.now)
    ensures var s' := Execute(rt, s, calls);
            id in s'.feeds && SameRounds(s.feeds[id], s'.feeds[id]) && Stalled(rt, s'.feeds[id], s'.now)
    decreases |calls|
  {
    hide Inv, Evolves, Step, InRange, Stalled, FeedInv, SameRounds;
    SameRoundsReflexive(s.feeds[id]);
    if calls != [] {
      InvFeed(rt, s, id);
      StepKeeps(rt, s, calls[0]);
      StallOutlastsStep(rt, s, calls[0], id);
      var t := Step(rt, s, calls[0]).state;
      StallIsPermanent(rt, t, calls[1..], id);
      SameRoundsTransitive(s.feeds[id], t.feeds[id], Execute(rt, s, calls).feeds[id]);
    }
  }
}
