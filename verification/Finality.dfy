/** A round without details is closed for good: nothing but pruning touches it again. */
module Finality {
  import opened Types
  import opened Medians
  import opened Feeds
  import opened FeedInvariant
  import opened RoundSteps
  import opened FeedSteps
  import opened Pallets
  import opened Runs
  import opened Consumers
  import opened Stalls

  /** Round `r` was opened and accepts no submissions any more. */
  ghost predicate Closed(f: FeedState, r: RoundId) {
    r <= f.config.reportingRound && r !in f.details
  }

  /** If round `r` is closed in `f`, it is in `g`, with the same data if it is stored, and the same submissions. */
  ghost predicate Seals(f: FeedState, g: FeedState, r: RoundId) {
    Closed(f, r) ==>
      && Closed(g, r)
      && (r in g.rounds ==> r in f.rounds && g.rounds[r] == f.rounds[r])
      && ValuesOf(g.history.accepted, r) == ValuesOf(f.history.accepted, r)
  }

  lemma SealsTransitive(f: FeedState, g: FeedState, h: FeedState, r: RoundId)
    requires Seals(f, g, r) && Seals(g, h, r)
    ensures Seals(f, h, r)
  {
  }

  // --- the operations on one feed ---

  lemma OpeningSeals(rt: Runtime, f: FeedState, now: BlockNumber, starter: Starter, r: RoundId)
    requires f.config.reportingRound < U32_MAX && ReadyState(rt, f, now).Ok?
    ensures var g := ReadyState(rt, f, now).value; g.config == f.config && Seals(f, NextOpened(g, now, starter), r)
  {
    hide ValuesOf;
  }

  lemma RequestSeals(rt: Runtime, f: FeedState, now: BlockNumber, who: AccountId, r: RoundId)
    requires RequestRound(rt, f, now, who).Ok?
    ensures Seals(f, RequestRound(rt, f, now, who).value, r)
  {
    hide Seals, IsSupersedable, IsTimedOut;
    OpeningSeals(rt, f, now, ByRequest(who), r);
  }

  lemma OpenIfEligibleSeals(rt: Runtime, f: FeedState, now: BlockNumber, oracle: AccountId, q: RoundId, r: RoundId)
    requires oracle in f.statuses && !Reopens(f, oracle, q) && OpenIfEligible(rt, f, now, oracle, q).Ok?
    ensures Seals(f, OpenIfEligible(rt, f, now, oracle, q).value, r)
  {
    hide IsTimedOut, ValuesOf;
    if MayStart(f, oracle, q) {
      OpeningSeals(rt, f, now, ByOracle(oracle), r);
    }
  }

  lemma PruneSeals(f: FeedState, target: RoundId, r: RoundId)
    ensures Seals(f, PrunedTo(f, target), r)
  {
    hide ValuesOf;
  }

  lemma AcceptSeals(rt: Runtime, f: FeedState, now: BlockNumber, oracle: AccountId, q: RoundId, value: Value, r: RoundId)
    requires oracle in f.statuses && Accept(rt, f, now, oracle, q, value).Ok?
    ensures Seals(f, Accept(rt, f, now, oracle, q, value).value, r)
  {
    hide ValuesOf, Sort, Median;
    ValuesAppend(f.history.accepted, Submission(oracle, q, value, now), r);
  }

  lemma SubmitSeals(rt: Runtime, f: FeedState, now: BlockNumber, oracle: AccountId, q: RoundId, value: Value, r: RoundId)
    requires !Reopens(f, oracle, q) && SubmitToFeed(rt, f, now, oracle, q, value).Ok?
    ensures Seals(f, SubmitToFeed(rt, f, now, oracle, q, value).value.0, r)
  {
    hide EnsureValidRound, OpenIfEligible, Accept, Seals, Reopens;
    OpenKeepsTerms(rt, f, now, oracle, q);
    OpenIfEligibleSeals(rt, f, now, oracle, q, r);
    var g := OpenIfEligible(rt, f, now, oracle, q).value;
    AcceptSeals(rt, g, now, oracle, q, value, r);
    SealsTransitive(f, g, Accept(rt, g, now, oracle, q, value).value, r);
  }

  lemma SameRoundsSeals(f: FeedState, g: FeedState, r: RoundId)
    requires g.rounds == f.rounds && g.details == f.details && g.history == f.history
    requires g.config.reportingRound == f.config.reportingRound
    ensures Seals(f, g, r)
  {
  }

  // --- steps and runs ---

  lemma SubmitStepSeals(rt: Runtime, s: State, c: Call, id: FeedId, r: RoundId)
    requires c.Submit? && SubmitStep(rt, s, c).Ok? && InRange(s, c) && id in s.feeds
    ensures id in SubmitStep(rt, s, c).value.feeds && Seals(s.feeds[id], SubmitStep(rt, s, c).value.feeds[id], r)
  {
    hide SubmitToFeed, Seals;
    if id == c.id {
      var g := SubmitToFeed(rt, s.feeds[id], s.now, c.who, c.round, c.value).value.0;
      SubmitSeals(rt, s.feeds[id], s.now, c.who, c.round, c.value, r);
      var h := SubmitStep(rt, s, c).value.feeds[id];
      SameRoundsSeals(g, h, r);
      SealsTransitive(s.feeds[id], g, h, r);
    } else {
      SameRoundsSeals(s.feeds[id], s.feeds[id], r);
    }
  }

  lemma RequestStepSeals(rt: Runtime, s: State, c: Call, id: FeedId, r: RoundId)
    requires (c.RequestNewRound? || c.RequestVia?) && id in s.feeds
    ensures id in Step(rt, s, c).state.feeds && Seals(s.feeds[id], Step(rt, s, c).state.feeds[id], r)
  {
    hide RequestRound, Seals;
    var f := s.feeds[id];
    SameRoundsSeals(f, f, r);
    if c.id == id {
      if c.RequestVia? && RequestRound(rt, f, s.now, c.who).Ok? {
        RequestSeals(rt, f, s.now, c.who, r);
      } else if c.RequestNewRound? && c.who in f.requesters && TakeTurn(f, c.who).Ok? {
        var noted := TakeTurn(f, c.who).value;
        SameRoundsSeals(f, noted, r);
        if RequestRound(rt, noted, s.now, c.who).Ok? {
          RequestSeals(rt, noted, s.now, c.who, r);
          SealsTransitive(f, noted, RequestRound(rt, noted, s.now, c.who).value, r);
        }
      }
    }
  }

  lemma PruningStepSeals(s: State, c: Call, id: FeedId, r: RoundId)
    requires c.SetPruningWindow? && SetPruningWindowStep(s, c).Ok? && id in s.feeds
    ensures id in SetPruningWindowStep(s, c).value.feeds && Seals(s.feeds[id], SetPruningWindowStep(s, c).value.feeds[id], r)
  {
    hide Seals, PrunedTo;
    var f := s.feeds[id];
    SameRoundsSeals(f, f, r);
    if c.id == id {
      var g := f.(config := f.config.(pruningWindow := c.window));
      SameRoundsSeals(f, g, r);
      PruneSeals(g, PruneTarget(g.config), r);
      SealsTransitive(f, g, PrunedToWindow(g), r);
    }
  }

  lemma StepSeals(rt: Runtime, s: State, c: Call, id: FeedId, r: RoundId)
    requires InRange(s, c) && id in s.feeds && id < s.feedCounter
    ensures id in Step(rt, s, c).state.feeds && Seals(s.feeds[id], Step(rt, s, c).state.feeds[id], r)
  {
    hide Seals, Step, InRange, CreateFeedStep, SubmitStep, SetPruningWindowStep;
    StepOf(rt, s, c);
    SameRoundsSeals(s.feeds[id], s.feeds[id], r);
    if c.Submit? {
      if SubmitStep(rt, s, c).Ok? { SubmitStepSeals(rt, s, c, id, r); }
    } else if c.CreateFeed? {
      if CreateFeedStep(rt, s, c).Ok? { CreationIsWide(rt, s, c); }
    } else if c.SetPruningWindow? {
      if SetPruningWindowStep(s, c).Ok? { PruningStepSeals(s, c, id, r); }
    } else if c.RequestNewRound? || c.RequestVia? {
      RequestStepSeals(rt, s, c, id, r);
    } else {
      QuietCallsKeepRounds(rt, s, c, id);
      SameRoundsSeals(s.feeds[id], Step(rt, s, c).state.feeds[id], r);
    }
  }

  lemma {:induction false} RunSeals(rt: Runtime, s: State, calls: seq<Call>, id: FeedId, r: RoundId)
    requires Inv(rt, s) && RunInRange(rt, s, calls) && id in s.feeds
    ensures id in Execute(rt, s, calls).feeds && Seals(s.feeds[id], Execute(rt, s, calls).feeds[id], r)
    decreases |calls|
  {
    hide Inv, Evolves, Step, InRange, Seals;
    if calls == [] {
      SameRoundsSeals(s.feeds[id], s.feeds[id], r);
    } else {
      InvFeed(rt, s, id);
      StepKeeps(rt, s, calls[0]);
      StepSeals(rt, s, calls[0], id, r);
      var t := Step(rt, s, calls[0]).state;
      RunSeals(rt, t, calls[1..], id, r);
      SealsTransitive(s.feeds[id], t.feeds[id], Execute(rt, s, calls).feeds[id], r);
    }
  }

  /**
   Along any run, a round without details never accepts a submission again and keeps its data until it is pruned:
   whether it was full, closed as timed out, or superseded.
   */
  lemma ClosedRoundsAreFinal(rt: Runtime, s: State, calls: seq<Call>, id: FeedId, r: RoundId)
    requires RuntimeOk(rt) && Reachable(rt, s) && RunInRange(rt, s, calls)
    requires id in s.feeds && r in s.feeds[id].rounds && r !in s.feeds[id].details
    ensures var s' := Execute(rt, s, calls);
            && id in s'.feeds
            && DataAt(s.feeds[id], r).Some?
            && (if r in s'.feeds[id].rounds then DataAt(s'.feeds[id], r) == DataAt(s.feeds[id], r)
                else 1 <= r < s'.feeds[id].config.nextRoundToPrune)
            && r !in s'.feeds[id].details
            && ValuesOf(s'.feeds[id].history.accepted, r) == ValuesOf(s.feeds[id].history.accepted, r)
  {
    hide Reachable, Inv, RunInRange, Execute, ValuesOf;
    ReachableInv(rt, s);
    ReachableRun(rt, s, calls);
    DataIsAWindow(rt, s, id, r);
    RunSeals(rt, s, calls, id, r);
    DataIsAWindow(rt, Execute(rt, s, calls), id, r);
    ClosedHasData(rt, s, id, r);
  }

  lemma ClosedHasData(rt: Runtime, s: State, id: FeedId, r: RoundId)
    requires RuntimeOk(rt) && Reachable(rt, s) && id in s.feeds && r in s.feeds[id].rounds && r !in s.feeds[id].details
    ensures DataAt(s.feeds[id], r).Some? && r <= s.feeds[id].config.reportingRound
  {
    hide Reachable;
    ReachableOrigins(rt, s, id);
  }
}
