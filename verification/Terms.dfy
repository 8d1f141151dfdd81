/** Rounds are opened on the terms the owner set last, and by whom they were set. */
module Terms {
  import opened Types
  import opened Medians
  import opened Feeds
  import opened FeedInvariant
  import opened FeedSteps
  import opened Progress
  import opened Pallets
  import opened Runs
  import opened Consumers
  import opened Stalls

  /** What the owner sets for future rounds. */
  datatype RoundTerms = RoundTerms(payment: Balance, bounds: CountBounds, restartDelay: RoundId, timeout: BlockNumber)

  function TermsOf(c: FeedConfig): RoundTerms {
    RoundTerms(c.payment, c.countBounds, c.restartDelay, c.timeout)
  }

  function OpenedOn(o: Opening): RoundTerms {
    RoundTerms(o.payment, o.countBounds, o.restartDelay, o.timeout)
  }

  /** Every round opened between `f` and `g` was opened on these terms. */
  ghost predicate OpenedSince(f: FeedState, g: FeedState, terms: RoundTerms) {
    forall r :: r in g.history.openings && r !in f.history.openings ==> OpenedOn(g.history.openings[r]) == terms
  }

  /** The terms stand, and rounds are opened on them. */
  ghost predicate OnTerms(f: FeedState, g: FeedState) {
    TermsOf(g.config) == TermsOf(f.config) && OpenedSince(f, g, TermsOf(f.config))
  }

  // --- the operations on one feed ---

  lemma OpeningOnTerms(rt: Runtime, f: FeedState, now: BlockNumber, r: RoundId, starter: Starter)
    requires InitializeRound(rt, f, now, r, starter).Ok?
    ensures OnTerms(f, InitializeRound(rt, f, now, r, starter).value)
  {
  }

  lemma OpenIfEligibleOnTerms(rt: Runtime, f: FeedState, now: BlockNumber, oracle: AccountId, r: RoundId)
    requires oracle in f.statuses && OpenIfEligible(rt, f, now, oracle, r).Ok?
    ensures OnTerms(f, OpenIfEligible(rt, f, now, oracle, r).value)
  {
    hide InitializeRound;
    if MayStart(f, oracle, r) {
      OpeningOnTerms(rt, f, now, r, ByOracle(oracle));
    }
  }

  lemma AcceptOnTerms(rt: Runtime, f: FeedState, now: BlockNumber, oracle: AccountId, r: RoundId, value: Value)
    requires oracle in f.statuses && Accept(rt, f, now, oracle, r, value).Ok?
    ensures TermsOf(Accept(rt, f, now, oracle, r, value).value.config) == TermsOf(f.config)
    ensures Accept(rt, f, now, oracle, r, value).value.history.openings == f.history.openings
  {
    hide Sort, Median;
  }

  lemma SubmitOnTerms(rt: Runtime, f: FeedState, now: BlockNumber, oracle: AccountId, r: RoundId, value: Value)
    requires SubmitToFeed(rt, f, now, oracle, r, value).Ok?
    ensures OnTerms(f, SubmitToFeed(rt, f, now, oracle, r, value).value.0)
  {
    hide EnsureValidRound, OpenIfEligible, Accept;
    OpenKeepsTerms(rt, f, now, oracle, r);
    OpenIfEligibleOnTerms(rt, f, now, oracle, r);
    AcceptOnTerms(rt, OpenIfEligible(rt, f, now, oracle, r).value, now, oracle, r, value);
  }

  // --- steps and runs ---

  /** The call changes the terms of feed `id`. */
  ghost predicate SetsTerms(rt: Runtime, s: State, c: Call, id: FeedId) {
    c.UpdateRounds? && c.id == id && Step(rt, s, c).result.Ok?
  }

  lemma SameOnTerms(f: FeedState, g: FeedState)
    requires TermsOf(g.config) == TermsOf(f.config) && g.history == f.history
    ensures OnTerms(f, g)
  {
  }

  lemma SubmitStepOnTerms(rt: Runtime, s: State, c: Call, id: FeedId)
    requires c.Submit? && SubmitStep(rt, s, c).Ok? && id in s.feeds
    ensures id in SubmitStep(rt, s, c).value.feeds && OnTerms(s.feeds[id], SubmitStep(rt, s, c).value.feeds[id])
  {
    hide SubmitToFeed;
    if c.id == id {
      SubmitOnTerms(rt, s.feeds[id], s.now, c.who, c.round, c.value);
    }
  }

  lemma RequestStepOnTerms(rt: Runtime, s: State, c: Call, id: FeedId)
    requires (c.RequestNewRound? || c.RequestVia?) && id in s.feeds
    ensures id in Step(rt, s, c).state.feeds && OnTerms(s.feeds[id], Step(rt, s, c).state.feeds[id])
  {
    hide InitializeRound, IsSupersedable;
    var f := s.feeds[id];
    if c.id == id && f.config.reportingRound < U32_MAX {
      var r: RoundId := f.config.reportingRound + 1;
      if c.RequestVia? && InitializeRound(rt, f, s.now, r, ByRequest(c.who)).Ok? {
        OpeningOnTerms(rt, f, s.now, r, ByRequest(c.who));
      } else if c.RequestNewRound? && c.who in f.requesters && TakeTurn(f, c.who).Ok? {
        var noted := TakeTurn(f, c.who).value;
        if InitializeRound(rt, noted, s.now, r, ByRequest(c.who)).Ok? {
          OpeningOnTerms(rt, noted, s.now, r, ByRequest(c.who));
        }
      }
    }
  }

  lemma OtherStepOnTerms(rt: Runtime, s: State, c: Call, id: FeedId)
    requires !c.Submit? && !c.RequestNewRound? && !c.RequestVia? && !SetsTerms(rt, s, c, id)
    requires id in s.feeds && id < s.feedCounter
    ensures id in Step(rt, s, c).state.feeds && OnTerms(s.feeds[id], Step(rt, s, c).state.feeds[id])
  {
    hide OnTerms, EnableEach, DisableEach;
    SameOnTerms(s.feeds[id], s.feeds[id]);
    var g := Step(rt, s, c).state.feeds[id];
    SameOnTerms(s.feeds[id], g);
  }

  lemma StepOnTerms(rt: Runtime, s: State, c: Call, id: FeedId)
    requires id in s.feeds && id < s.feedCounter && !SetsTerms(rt, s, c, id)
    ensures id in Step(rt, s, c).state.feeds && OnTerms(s.feeds[id], Step(rt, s, c).state.feeds[id])
  {
    hide OnTerms, SubmitStep;
    SameOnTerms(s.feeds[id], s.feeds[id]);
    if c.Submit? {
      if SubmitStep(rt, s, c).Ok? { SubmitStepOnTerms(rt, s, c, id); }
    } else if c.RequestNewRound? || c.RequestVia? {
      RequestStepOnTerms(rt, s, c, id);
    } else {
      OtherStepOnTerms(rt, s, c, id);
    }
  }

  /** No call of the run changes the terms of feed `id`. */
  ghost predicate TermsStand(rt: Runtime, s: State, calls: seq<Call>, id: FeedId)
    decreases |calls|
  {
    calls != [] ==> !SetsTerms(rt, s, calls[0], id) && TermsStand(rt, Step(rt, s, calls[0]).state, calls[1..], id)
  }

  lemma OnTermsTransitive(f: FeedState, g: FeedState, h: FeedState)
    requires OnTerms(f, g) && OnTerms(g, h)
    requires forall r :: r in g.history.openings ==> r in h.history.openings && h.history.openings[r] == g.history.openings[r]
    ensures OnTerms(f, h)
  {
  }

  lemma {:induction false} RunOnTerms(rt: Runtime, s: State, calls: seq<Call>, id: FeedId)
    requires Inv(rt, s) && RunInRange(rt, s, calls) && id in s.feeds && TermsStand(rt, s, calls, id)
    ensures id in Execute(rt, s, calls).feeds && OnTerms(s.feeds[id], Execute(rt, s, calls).feeds[id])
    decreases |calls|
  {
    hide Inv, Step, InRange, SetsTerms, OnTerms;
    if calls == [] {
      SameOnTerms(s.feeds[id], s.feeds[id]);
    } else {
      var t := Step(rt, s, calls[0]).state;
      InvFeed(rt, s, id);
      StepKeeps(rt, s, calls[0]);
      StepOnTerms(rt, s, calls[0], id);
      RunOnTerms(rt, t, calls[1..], id);
      RunKeeps(rt, t, calls[1..]);
      OnTermsTransitive(s.feeds[id], t.feeds[id], Execute(rt, s, calls).feeds[id]);
    }
  }

  // --- setting the terms ---

  /** Terms that `count` oracles can meet. */
  ghost predicate Feasible(t: RoundTerms, count: u32) {
    1 <= t.bounds.min <= t.bounds.max <= count && t.restartDelay < count
  }

  ghost function CallTerms(c: Call): RoundTerms
    requires c.UpdateRounds?
  {
    RoundTerms(c.payment, c.bounds, c.restartDelay, c.timeout)
  }

  /** The owner can set exactly the terms that the feed's oracles can meet, and they replace the old ones, nothing else. */
  lemma UpdateIff(rt: Runtime, s: State, c: Call)
    requires c.UpdateRounds? && c.id in s.feeds
    ensures var f := s.feeds[c.id]; var o := Step(rt, s, c);
            && (o.result.Ok? <==> f.config.owner == c.who && Feasible(CallTerms(c), f.config.oracleCount))
            && c.id in o.state.feeds
            && TermsOf(o.state.feeds[c.id].config) == (if o.result.Ok? then CallTerms(c) else TermsOf(f.config))
            && o.state.feeds[c.id].history == f.history && o.state.feeds[c.id].details == f.details
            && o.state.feeds[c.id].rounds == f.rounds && o.state.feeds[c.id].statuses == f.statuses
  {
  }

  /** The details of a round hold the terms it was opened on. */
  lemma DetailsHoldTerms(rt: Runtime, f: FeedState, r: RoundId)
    requires FeedInv(rt, f) && r in f.details
    ensures r in f.history.openings
    ensures var d, o := f.details[r], f.history.openings[r];
            d.payment == o.payment && d.countBounds == o.countBounds && d.timeout == o.timeout
  {
    hide WindowOk, ProvenanceOk, CarryOk, OracleSide;
    assert OpenRoundOk(rt, f, r);
  }

  /**
   Along any run from the call on that sets new terms until they are set again, by request or by submission, rounds are
   opened on the new terms and earlier rounds keep theirs; submissions are taken and paid on them.
   */
  lemma NewTermsApply(rt: Runtime, s: State, c: Call, calls: seq<Call>, r: RoundId)
    requires RuntimeOk(rt) && Reachable(rt, s) && c.UpdateRounds? && Step(rt, s, c).result.Ok?
    requires RunInRange(rt, Step(rt, s, c).state, calls) && TermsStand(rt, Step(rt, s, c).state, calls, c.id)
    ensures c.id in s.feeds && c.id in Execute(rt, Step(rt, s, c).state, calls).feeds
    ensures var f := s.feeds[c.id]; var g := Execute(rt, Step(rt, s, c).state, calls).feeds[c.id];
            && (r in g.history.openings ==>
                  if r in f.history.openings then g.history.openings[r] == f.history.openings[r]
                  else OpenedOn(g.history.openings[r]) == CallTerms(c))
            && (r in g.details && r !in f.history.openings ==>
                  g.details[r] == RoundDetails(g.details[r].submissions, c.bounds, c.payment, c.timeout))
  {
    hide Reachable, Inv, RunInRange, Execute, Step, TermsStand;
    var t := Step(rt, s, c).state;
    UpdatesKnownFeed(rt, s, c);
    UpdateIff(rt, s, c);
    ReachableThen(rt, s, c);
    RunFromTerms(rt, t, calls, c.id, r);
  }

  lemma UpdatesKnownFeed(rt: Runtime, s: State, c: Call)
    requires c.UpdateRounds? && Step(rt, s, c).result.Ok?
    ensures c.id in s.feeds && InRange(s, c)
  {
  }

  lemma RunFromTerms(rt: Runtime, s: State, calls: seq<Call>, id: FeedId, r: RoundId)
    requires RuntimeOk(rt) && Reachable(rt, s) && id in s.feeds && RunInRange(rt, s, calls) && TermsStand(rt, s, calls, id)
    ensures id in Execute(rt, s, calls).feeds
    ensures var f := s.feeds[id]; var g := Execute(rt, s, calls).feeds[id]; var c := f.config;
            && (r in g.history.openings ==>
                  if r in f.history.openings then g.history.openings[r] == f.history.openings[r]
                  else OpenedOn(g.history.openings[r]) == TermsOf(c))
            && (r in g.details && r !in f.history.openings ==>
                  g.details[r] == RoundDetails(g.details[r].submissions, c.countBounds, c.payment, c.timeout))
  {
    hide Reachable, Inv, RunInRange, Execute, Step, TermsStand, FeedInv;
    ReachableInv(rt, s);
    RunOnTerms(rt, s, calls, id);
    RunKeeps(rt, s, calls);
    ReachableRun(rt, s, calls);
    ReachableFeed(rt, Execute(rt, s, calls), id);
    assert Advances(s.feeds[id], Execute(rt, s, calls).feeds[id]);
    if r in Execute(rt, s, calls).feeds[id].details {
      DetailsHoldTerms(rt, Execute(rt, s, calls).feeds[id], r);
    }
  }
}
