/** Every operation on one feed keeps the feed invariant and only moves the feed forward. */
module FeedSteps {
  import opened Types
  import opened Feeds
  import opened FeedInvariant
  import opened RoundSteps

  // --- opening by request, submitting ---

  lemma RequestRoundKeeps(rt: Runtime, f: FeedState, now: BlockNumber, requester: AccountId)
    requires FeedInv(rt, f) && RequestRound(rt, f, now, requester).Ok?
    ensures FeedInv(rt, RequestRound(rt, f, now, requester).value)
  {
    hide FeedInv;
    ReadyStateKeeps(rt, f, now);
    RequestedOpenKeeps(rt, ReadyState(rt, f, now).value, now, requester);
  }

  /** A submission to the last round id, while it is reported, that would open that round a second time. */
  ghost predicate Reopens(f: FeedState, oracle: AccountId, r: RoundId) {
    f.config.reportingRound == U32_MAX && oracle in f.statuses && MayStart(f, oracle, r)
  }

  lemma OpenIfEligibleKeeps(rt: Runtime, f: FeedState, now: BlockNumber, oracle: AccountId, r: RoundId)
    requires FeedInv(rt, f) && !Reopens(f, oracle, r)
    requires EnsureValidRound(rt, f, now, oracle, r).Ok?
    requires OpenIfEligible(rt, f, now, oracle, r).Ok?
    ensures FeedInv(rt, OpenIfEligible(rt, f, now, oracle, r).value)
  {
    hide FeedInv;
    if MayStart(f, oracle, r) {
      assert r == f.config.reportingRound + 1;
      ReadyStateKeeps(rt, f, now);
      StartedOpenKeeps(rt, ReadyState(rt, f, now).value, now, oracle);
    }
  }

  lemma AcceptingAfterOpen(rt: Runtime, f: FeedState, now: BlockNumber, oracle: AccountId, r: RoundId)
    requires WindowOk(f) && !Reopens(f, oracle, r)
    requires EnsureValidRound(rt, f, now, oracle, r).Ok?
    requires OpenIfEligible(rt, f, now, oracle, r).Ok?
    requires r in OpenIfEligible(rt, f, now, oracle, r).value.details
    ensures Accepting(OpenIfEligible(rt, f, now, oracle, r).value, oracle, r)
  {
  }

  lemma AcceptKeeps(rt: Runtime, f: FeedState, now: BlockNumber, oracle: AccountId, r: RoundId, value: Value)
    requires FeedInv(rt, f) && Accepting(f, oracle, r) && InBounds(f.config, value)
    ensures Accept(rt, f, now, oracle, r, value).Ok?
    ensures FeedInv(rt, Accept(rt, f, now, oracle, r, value).value)
  {
    hide FeedInv;
    if |f.details[r].submissions| + 1 < f.details[r].countBounds.min {
      RecordBelowMinimumKeeps(rt, f, now, oracle, r, value);
    } else {
      AnswerKeeps(rt, f, now, oracle, r, value);
      var g := AnsweredState(rt, f, now, oracle, r, value);
      PruneOldestIsPrunedTo(g);
      if PruneOldest(g) != g {
        PruneKeeps(rt, g, g.config.nextRoundToPrune + 1);
      }
    }
  }

  lemma OpenIfEligibleKeepsBounds(rt: Runtime, f: FeedState, now: BlockNumber, oracle: AccountId, r: RoundId, value: Value)
    requires oracle in f.statuses && OpenIfEligible(rt, f, now, oracle, r).Ok? && InBounds(f.config, value)
    ensures var g := OpenIfEligible(rt, f, now, oracle, r).value; oracle in g.statuses && InBounds(g.config, value)
  {
  }

  lemma AcceptingInOpened(rt: Runtime, f: FeedState, now: BlockNumber, oracle: AccountId, r: RoundId, value: Value)
    requires WindowOk(f) && !Reopens(f, oracle, r) && SubmitToFeed(rt, f, now, oracle, r, value).Ok?
    ensures Accepting(OpenIfEligible(rt, f, now, oracle, r).value, oracle, r)
  {
    hide WindowOk, EnsureValidRound, OpenIfEligible, Accepting;
    AcceptingAfterOpen(rt, f, now, oracle, r);
  }

  ghost predicate SameLimits(c: FeedConfig, d: FeedConfig) {
    d.debt == c.debt && d.maxDebt == c.maxDebt && d.restartDelay == c.restartDelay
  }

  lemma AcceptKeepsTerms(rt: Runtime, f: FeedState, now: BlockNumber, oracle: AccountId, r: RoundId, value: Value)
    requires oracle in f.statuses && Accept(rt, f, now, oracle, r, value).Ok?
    ensures var c := Accept(rt, f, now, oracle, r, value).value.config; SameLimits(f.config, c)
  {
  }

  lemma OpenKeepsTerms(rt: Runtime, f: FeedState, now: BlockNumber, oracle: AccountId, r: RoundId)
    requires oracle in f.statuses && OpenIfEligible(rt, f, now, oracle, r).Ok?
    ensures var g := OpenIfEligible(rt, f, now, oracle, r).value;
            oracle in g.statuses && SameLimits(f.config, g.config)
  {
  }

  lemma SubmitToFeedKeeps(rt: Runtime, f: FeedState, now: BlockNumber, oracle: AccountId, r: RoundId, value: Value)
    requires FeedInv(rt, f) && !Reopens(f, oracle, r)
    requires SubmitToFeed(rt, f, now, oracle, r, value).Ok?
    ensures FeedInv(rt, SubmitToFeed(rt, f, now, oracle, r, value).value.0)
  {
    assert WindowOk(f);
    hide FeedInv, WindowOk, EnsureValidRound, OpenIfEligible;
    OpenIfEligibleKeepsBounds(rt, f, now, oracle, r, value);
    OpenIfEligibleKeeps(rt, f, now, oracle, r);
    AcceptingAfterOpen(rt, f, now, oracle, r);
    hide Accepting, InBounds, Accept;
    AcceptKeeps(rt, OpenIfEligible(rt, f, now, oracle, r).value, now, oracle, r, value);
  }

  // --- configuration ---

  /** Only fields that the invariant does not mention differ. */
  ghost predicate SameButTerms(f: FeedState, g: FeedState) {
    && g.rounds == f.rounds && g.details == f.details && g.statuses == f.statuses && g.history == f.history
    && g.config == f.config.(owner := g.config.owner, countBounds := g.config.countBounds, payment := g.config.payment,
                             timeout := g.config.timeout, restartDelay := g.config.restartDelay,
                             pruningWindow := g.config.pruningWindow, debt := g.config.debt)
  }

  lemma TermsKeep(rt: Runtime, f: FeedState, g: FeedState)
    requires FeedInv(rt, f) && SameButTerms(f, g) && BoundsOk(g.config.countBounds)
    ensures FeedInv(rt, g)
  {
    hide RoundSide, OracleSide;
    RoundSideFrame(rt, f, g);
    OracleSideFrame(rt, f, g);
  }

  lemma UpdateFutureRoundsKeeps(
    rt: Runtime, f: FeedState, payment: Balance, bounds: CountBounds, restartDelay: RoundId, timeout: BlockNumber)
    requires FeedInv(rt, f) && UpdateFutureRounds(f, payment, bounds, restartDelay, timeout).Ok?
    ensures FeedInv(rt, UpdateFutureRounds(f, payment, bounds, restartDelay, timeout).value)
  {
    hide FeedInv;
    TermsKeep(rt, f, UpdateFutureRounds(f, payment, bounds, restartDelay, timeout).value);
  }

  lemma PruneTargetReachable(c: FeedConfig)
    requires CountersOk(c)
    ensures c.nextRoundToPrune <= PruneTarget(c)
    ensures PruneTarget(c) == c.nextRoundToPrune || PruneTarget(c) <= c.latestRound
  {
  }

  lemma SetWindowKeeps(rt: Runtime, f: FeedState, window: Window)
    requires FeedInv(rt, f)
    ensures FeedInv(rt, PrunedToWindow(f.(config := f.config.(pruningWindow := window))))
  {
    var g := f.(config := f.config.(pruningWindow := window));
    TermsKeep(rt, f, g);
    PruneTargetReachable(g.config);
    PruneKeeps(rt, g, PruneTarget(g.config));
  }

  // --- oracles ---

  /** Statuses may gain entries, and only their first and last rounds may change. */
  ghost predicate OnlyTermsChanged(s: OracleStatus, t: OracleStatus) {
    && t.lastReportedRound == s.lastReportedRound && t.lastStartedRound == s.lastStartedRound
    && t.latestSubmission == s.latestSubmission
  }

  ghost predicate StatusesExtended(
    statuses: map<AccountId, OracleStatus>, later: map<AccountId, OracleStatus>, reporting: RoundId)
  {
    && (forall o :: o in statuses ==> o in later && OnlyTermsChanged(statuses[o], later[o]))
    && (forall o :: o in later && o !in statuses ==> OnlyTermsChanged(OracleStatus(0, None, None, None, None), later[o]))
    && ((forall o :: o in statuses ==> TermOk(statuses[o], reporting)) ==>
          forall o :: o in later ==> TermOk(later[o], reporting))
  }

  lemma StatusesKeep(rt: Runtime, f: FeedState, g: FeedState)
    requires FeedInv(rt, f) && StatusesExtended(f.statuses, g.statuses, f.config.reportingRound)
    requires g == f.(statuses := g.statuses, config := f.config.(oracleCount := g.config.oracleCount))
    requires OracleCountOk(rt, g)
    ensures FeedInv(rt, g)
  {
    assert BoundsOk(g.config.countBounds) by { PartsOf(rt, f); }
    hide RoundSide, OracleSide;
    RoundSideFrame(rt, f, g);
    StatusesKeepOracleSide(rt, f, g);
  }

  lemma StatusesKeepOracleSide(rt: Runtime, f: FeedState, g: FeedState)
    requires OracleSide(rt, f) && StatusesExtended(f.statuses, g.statuses, f.config.reportingRound)
    requires g == f.(statuses := g.statuses, config := f.config.(oracleCount := g.config.oracleCount))
    requires OracleCountOk(rt, g)
    ensures OracleSide(rt, g)
  {
    forall i | 0 <= i < |g.history.accepted| ensures SubmissionOk(g, g.history.accepted[i]) {
      assert SubmissionOk(f, f.history.accepted[i]);
    }
    forall p | p in g.history.openings && g.history.openings[p].starter.ByOracle?
      ensures StartedAtLeast(g.statuses, g.history.openings[p].starter.oracle, p)
    {
      assert StartedAtLeast(f.statuses, f.history.openings[p].starter.oracle, p);
    }
    forall o | o in g.statuses ensures StatusOk(g, o, g.statuses[o]) {
      assert o in f.statuses ==> StatusOk(f, o, f.statuses[o]);
    }
  }

  lemma {:induction false} EnableEachKeeps(
    statuses: map<AccountId, OracleStatus>, oracles: map<AccountId, OracleMeta>,
    reporting: RoundId, toAdd: seq<(AccountId, AccountId)>)
    requires EnableEach(statuses, oracles, reporting, toAdd).Ok?
    ensures var (later, metas) := EnableEach(statuses, oracles, reporting, toAdd).value;
            && StatusesExtended(statuses, later, reporting)
            && |EnabledOracles(later)| == |EnabledOracles(statuses)| + |toAdd|
    decreases |toAdd|
  {
    if toAdd != [] {
      var o := toAdd[0].0;
      var (s, m) := EnableOne(statuses, oracles, reporting, o, toAdd[0].1).value;
      assert EnabledOracles(s) == EnabledOracles(statuses) + {o};
      assert o !in EnabledOracles(statuses);
      EnableEachKeeps(s, m, reporting, toAdd[1..]);
    }
  }

  lemma {:induction false} DisableEachKeeps(
    statuses: map<AccountId, OracleStatus>, reporting: RoundId, toDisable: seq<AccountId>)
    requires DisableEach(statuses, reporting, toDisable).Ok?
    ensures var later := DisableEach(statuses, reporting, toDisable).value;
            && StatusesExtended(statuses, later, reporting)
            && |EnabledOracles(later)| == |EnabledOracles(statuses)| - |toDisable|
    decreases |toDisable|
  {
    if toDisable != [] {
      var o := toDisable[0];
      var s := DisableOne(statuses, reporting, o).value;
      assert EnabledOracles(s) == EnabledOracles(statuses) - {o};
      assert o in EnabledOracles(statuses);
      DisableEachKeeps(s, reporting, toDisable[1..]);
    }
  }

  ghost predicate RuntimeOk(rt: Runtime) {
    rt.oracleCountLimit < U32_MAX
  }

  lemma AddOraclesKeeps(rt: Runtime, f: FeedState, oracles: map<AccountId, OracleMeta>, toAdd: OracleList)
    requires RuntimeOk(rt) && FeedInv(rt, f) && AddOracles(rt, f, oracles, toAdd).Ok?
    ensures FeedInv(rt, AddOracles(rt, f, oracles, toAdd).value.0)
  {
    EnableEachKeeps(f.statuses, oracles, f.config.reportingRound, toAdd);
    StatusesKeep(rt, f, AddOracles(rt, f, oracles, toAdd).value.0);
  }

  lemma DisableOraclesKeeps(rt: Runtime, f: FeedState, toDisable: AccountList)
    requires FeedInv(rt, f) && DisableOracles(f, toDisable).Ok?
    ensures FeedInv(rt, DisableOracles(f, toDisable).value)
  {
    DisableEachKeeps(f.statuses, f.config.reportingRound, toDisable);
    StatusesKeep(rt, f, DisableOracles(f, toDisable).value);
  }
}
