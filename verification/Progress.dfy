/** What an operation may do to what came before: counters only grow and settled rounds are final. */
module Progress {
  import opened Types
  import opened Feeds
  import opened FeedInvariant
  import opened RoundSteps
  import opened FeedSteps

  /** Round `r` can no longer change: a later round has an answer, or two later rounds were opened. */
  ghost predicate Settled(f: FeedState, r: RoundId) {
    r + 1 < f.config.reportingRound || r < f.config.latestRound
  }

  /** A settled round keeps its data for as long as it is stored, and goes away only by pruning. */
  ghost predicate Final(f: FeedState, g: FeedState, r: RoundId)
    requires r in f.rounds
  {
    if r in g.rounds then g.rounds[r] == f.rounds[r] else 1 <= r < g.config.nextRoundToPrune
  }

  ghost predicate CountersAdvance(f: FeedConfig, g: FeedConfig) {
    && f.reportingRound <= g.reportingRound
    && f.latestRound <= g.latestRound
    && f.nextRoundToPrune <= g.nextRoundToPrune
    && g.minValue == f.minValue && g.maxValue == f.maxValue && g.maxDebt == f.maxDebt
  }

  ghost predicate SettledStay(f: FeedState, g: FeedState) {
    forall r :: r in f.rounds && Settled(f, r) ==> Final(f, g, r)
  }

  /** Openings are never rewritten and no submission is accepted for a settled round. */
  ghost predicate HistoryExtends(f: FeedState, g: FeedState) {
    && (forall r :: r in f.history.openings ==>
          r in g.history.openings && g.history.openings[r] == f.history.openings[r])
    && f.history.accepted <= g.history.accepted
    && (forall i :: |f.history.accepted| <= i < |g.history.accepted| ==> !Settled(f, g.history.accepted[i].round))
  }

  ghost predicate Advances(f: FeedState, g: FeedState) {
    CountersAdvance(f.config, g.config) && SettledStay(f, g) && HistoryExtends(f, g)
  }

  lemma AdvancesTransitive(f: FeedState, g: FeedState, h: FeedState)
    requires Advances(f, g) && Advances(g, h) && WindowOk(h)
    ensures Advances(f, h)
  {
  }

  lemma ReadyStateAdvances(rt: Runtime, f: FeedState, now: BlockNumber)
    requires CountersOk(f.config) && ReadyState(rt, f, now).Ok?
    ensures Advances(f, ReadyState(rt, f, now).value)
  {
  }

  lemma OpenAdvances(f: FeedState, now: BlockNumber, starter: Starter)
    requires CountersOk(f.config) && WindowOk(f) && OpeningsOk(f) && f.config.reportingRound < U32_MAX
    ensures Advances(f, NextOpened(f, now, starter))
  {
  }

  lemma RequestRoundAdvances(rt: Runtime, f: FeedState, now: BlockNumber, requester: AccountId)
    requires FeedInv(rt, f) && RequestRound(rt, f, now, requester).Ok?
    ensures Advances(f, RequestRound(rt, f, now, requester).value)
  {
    hide Advances, WindowOk, OpeningsOk, ProvenanceOk, CarryOk, OpenOk, SubmissionsOk, CountsOk, StatusesOk, OracleCountOk;
    RequestRoundKeeps(rt, f, now, requester);
    ReadyStateKeeps(rt, f, now);
    var ready := ReadyState(rt, f, now).value;
    ReadyStateAdvances(rt, f, now);
    OpenAdvances(ready, now, ByRequest(requester));
    AdvancesTransitive(f, ready, RequestRound(rt, f, now, requester).value);
  }

  lemma AdvancesFrame(f: FeedState, g: FeedState, h: FeedState)
    requires Advances(f, g) && h.config == g.config && h.rounds == g.rounds && h.history == g.history
    ensures Advances(f, h)
  {
  }

  lemma StartAdvances(rt: Runtime, f: FeedState, now: BlockNumber, oracle: AccountId)
    requires FeedInv(rt, f) && ReadyToOpen(f)
    requires oracle in f.statuses && MayStart(f, oracle, f.config.reportingRound + 1)
    ensures Advances(f, MarkStarted(NextOpened(f, now, ByOracle(oracle)), oracle, f.config.reportingRound + 1))
  {
    OpenAdvances(f, now, ByOracle(oracle));
    hide Advances, FeedInv;
    var g := NextOpened(f, now, ByOracle(oracle));
    AdvancesFrame(f, g, MarkStarted(g, oracle, f.config.reportingRound + 1));
  }

  lemma OpenIfEligibleAdvances(rt: Runtime, f: FeedState, now: BlockNumber, oracle: AccountId, r: RoundId)
    requires FeedInv(rt, f) && !Reopens(f, oracle, r)
    requires EnsureValidRound(rt, f, now, oracle, r).Ok? && OpenIfEligible(rt, f, now, oracle, r).Ok?
    ensures Advances(f, OpenIfEligible(rt, f, now, oracle, r).value)
  {
    hide Advances, WindowOk, ProvenanceOk, CarryOk, OpenOk, OracleSide;
    if MayStart(f, oracle, r) {
      OpenIfEligibleKeeps(rt, f, now, oracle, r);
      ReadyStateKeeps(rt, f, now);
      var ready := ReadyState(rt, f, now).value;
      ReadyStateAdvances(rt, f, now);
      StartAdvances(rt, ready, now, oracle);
      AdvancesTransitive(f, ready, MarkStarted(NextOpened(ready, now, ByOracle(oracle)), oracle, r));
    } else {
      SameRoundsAdvance(f, f);
    }
  }

  lemma PruneAdvances(rt: Runtime, f: FeedState, target: RoundId)
    requires CountersOk(f.config) && f.config.nextRoundToPrune <= target
    ensures Advances(f, PrunedTo(f, target))
  {
  }

  lemma AnswerAdvances(rt: Runtime, f: FeedState, now: BlockNumber, oracle: AccountId, r: RoundId, value: Value)
    requires CountersOk(f.config) && WindowOk(f) && Accepting(f, oracle, r)
    ensures Advances(f, AnsweredState(rt, f, now, oracle, r, value))
  {
    assert Answered(f.rounds[f.config.latestRound]);
  }

  lemma RecordAdvances(f: FeedState, now: BlockNumber, oracle: AccountId, r: RoundId, value: Value, submissions: seq<Value>)
    requires CountersOk(f.config) && WindowOk(f) && Accepting(f, oracle, r)
    ensures Advances(f, Recorded(f, now, oracle, r, value, submissions))
  {
  }

  lemma PruneOldestAdvances(rt: Runtime, f: FeedState, g: FeedState)
    requires FeedInv(rt, g) && Advances(f, g) && WindowOk(PruneOldest(g))
    ensures Advances(f, PruneOldest(g))
  {
    hide Advances, WindowOk;
    PruneOldestIsPrunedTo(g);
    if PruneOldest(g) != g {
      PruneAdvances(rt, g, g.config.nextRoundToPrune + 1);
      AdvancesTransitive(f, g, PruneOldest(g));
    }
  }

  lemma AcceptAdvances(rt: Runtime, f: FeedState, now: BlockNumber, oracle: AccountId, r: RoundId, value: Value)
    requires FeedInv(rt, f) && Accepting(f, oracle, r) && InBounds(f.config, value)
    requires Accept(rt, f, now, oracle, r, value).Ok?
    ensures Advances(f, Accept(rt, f, now, oracle, r, value).value)
  {
    hide Advances, WindowOk, ProvenanceOk, CarryOk, OpenOk, OracleSide, CountersOk;
    AcceptKeeps(rt, f, now, oracle, r, value);
    if |f.details[r].submissions| + 1 < f.details[r].countBounds.min {
      RecordAdvances(f, now, oracle, r, value, f.details[r].submissions + [value]);
    } else {
      AnswerKeeps(rt, f, now, oracle, r, value);
      AnswerAdvances(rt, f, now, oracle, r, value);
      PruneOldestAdvances(rt, f, AnsweredState(rt, f, now, oracle, r, value));
    }
  }

  lemma SubmitToFeedAdvances(rt: Runtime, f: FeedState, now: BlockNumber, oracle: AccountId, r: RoundId, value: Value)
    requires FeedInv(rt, f) && !Reopens(f, oracle, r)
    requires SubmitToFeed(rt, f, now, oracle, r, value).Ok?
    ensures Advances(f, SubmitToFeed(rt, f, now, oracle, r, value).value.0)
  {
    SubmitToFeedKeeps(rt, f, now, oracle, r, value);
    assert WindowOk(f);
    assert WindowOk(SubmitToFeed(rt, f, now, oracle, r, value).value.0);
    hide FeedInv, WindowOk, EnsureValidRound, OpenIfEligible;
    OpenIfEligibleKeepsBounds(rt, f, now, oracle, r, value);
    OpenIfEligibleKeeps(rt, f, now, oracle, r);
    OpenIfEligibleAdvances(rt, f, now, oracle, r);
    AcceptingAfterOpen(rt, f, now, oracle, r);
    hide Accepting, InBounds, Accept, Advances;
    var g := OpenIfEligible(rt, f, now, oracle, r).value;
    AcceptAdvances(rt, g, now, oracle, r, value);
    AdvancesTransitive(f, g, Accept(rt, g, now, oracle, r, value).value);
  }

  /** Operations that leave rounds and history alone. */
  lemma SameRoundsAdvance(f: FeedState, g: FeedState)
    requires g.rounds == f.rounds && g.history == f.history && CountersAdvance(f.config, g.config)
    ensures Advances(f, g)
  {
  }

  lemma SetWindowAdvances(rt: Runtime, f: FeedState, window: Window)
    requires FeedInv(rt, f)
    ensures Advances(f, PrunedToWindow(f.(config := f.config.(pruningWindow := window))))
  {
    var g := f.(config := f.config.(pruningWindow := window));
    PruneTargetReachable(g.config);
    PruneAdvances(rt, g, PruneTarget(g.config));
    SameRoundsAdvance(f, g);
    SetWindowKeeps(rt, f, window);
    AdvancesTransitive(f, g, PrunedToWindow(g));
  }
}
