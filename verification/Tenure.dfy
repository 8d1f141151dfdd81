/** Oracles report only to rounds of their term: from the one reported when they were added to the one when they were disabled. */
module Tenure {
  import opened Types
  import opened Medians
  import opened Feeds
  import opened FeedInvariant
  import opened FeedSteps
  import opened Pallets
  import opened Runs
  import opened Oracles
  import opened Stalls

  ghost predicate SameTerm(s: OracleStatus, t: OracleStatus) {
    t.startingRound == s.startingRound && t.endingRound == s.endingRound
  }

  ghost predicate SameTerms(f: FeedState, g: FeedState) {
    forall o :: o in f.statuses ==> o in g.statuses && SameTerm(f.statuses[o], g.statuses[o])
  }

  ghost predicate WithinTerm(s: OracleStatus, r: RoundId) {
    s.startingRound <= r && (s.endingRound.Some? ==> r <= s.endingRound.value)
  }

  // --- one step ---

  lemma SubmitKeepsTerms(rt: Runtime, f: FeedState, now: BlockNumber, oracle: AccountId, r: RoundId, value: Value)
    requires SubmitToFeed(rt, f, now, oracle, r, value).Ok?
    ensures var g := SubmitToFeed(rt, f, now, oracle, r, value).value.0;
            && SameTerms(f, g) && oracle in f.statuses && WithinTerm(f.statuses[oracle], r)
            && g.history.accepted == f.history.accepted + [Submission(oracle, r, value, now)]
  {
    OpenKeepsStatuses(rt, f, now, oracle, r);
    hide OpenIfEligible, Accept;
    AcceptKeepsStatuses(rt, OpenIfEligible(rt, f, now, oracle, r).value, now, oracle, r, value);
  }

  lemma OpenKeepsStatuses(rt: Runtime, f: FeedState, now: BlockNumber, oracle: AccountId, r: RoundId)
    requires oracle in f.statuses && OpenIfEligible(rt, f, now, oracle, r).Ok?
    ensures var g := OpenIfEligible(rt, f, now, oracle, r).value;
            SameTerms(f, g) && g.history.accepted == f.history.accepted
  {
  }

  lemma AcceptKeepsStatuses(rt: Runtime, f: FeedState, now: BlockNumber, oracle: AccountId, r: RoundId, value: Value)
    requires oracle in f.statuses && Accept(rt, f, now, oracle, r, value).Ok?
    ensures var g := Accept(rt, f, now, oracle, r, value).value;
            SameTerms(f, g) && g.history.accepted == f.history.accepted + [Submission(oracle, r, value, now)]
  {
    hide Sort, Median;
  }

  /** The call changes the oracles of feed `id`. */
  ghost predicate ChangesOracles(rt: Runtime, s: State, c: Call, id: FeedId) {
    c.ChangeOracles? && c.id == id && Step(rt, s, c).result.Ok?
  }

  /** The call is a submission that feed `id` takes. */
  ghost predicate Submits(rt: Runtime, s: State, c: Call, id: FeedId) {
    c.Submit? && c.id == id && Step(rt, s, c).result.Ok?
  }

  lemma SubmitStepKeepsTerms(rt: Runtime, s: State, c: Call, id: FeedId)
    requires id in s.feeds && Submits(rt, s, c, id)
    ensures var s' := Step(rt, s, c).state;
            && id in s'.feeds && SameTerms(s.feeds[id], s'.feeds[id])
            && c.who in s.feeds[id].statuses && WithinTerm(s.feeds[id].statuses[c.who], c.round)
            && s'.feeds[id].history.accepted == s.feeds[id].history.accepted + [Submission(c.who, c.round, c.value, s.now)]
  {
    hide SubmitToFeed, SameTerms, WithinTerm, Step;
    StepOf(rt, s, c);
    var g := SubmitToFeed(rt, s.feeds[id], s.now, c.who, c.round, c.value).value.0;
    SubmitKeepsTerms(rt, s.feeds[id], s.now, c.who, c.round, c.value);
    StatusesKeepTerms(s.feeds[id], g, SubmitStep(rt, s, c).value.feeds[id]);
  }

  lemma StatusesKeepTerms(f: FeedState, g: FeedState, h: FeedState)
    requires SameTerms(f, g) && h.statuses == g.statuses
    ensures SameTerms(f, h)
  {
  }

  ghost predicate SameStatuses(f: FeedState, g: FeedState) {
    g.statuses == f.statuses && g.history.accepted == f.history.accepted
  }

  lemma RequestStepKeepsTerms(rt: Runtime, s: State, c: Call, id: FeedId)
    requires id in s.feeds && (c.RequestNewRound? || c.RequestVia?)
    ensures id in Step(rt, s, c).state.feeds && SameStatuses(s.feeds[id], Step(rt, s, c).state.feeds[id])
  {
    hide RequestRound;
    var f := s.feeds[id];
    if c.id == id {
      if c.RequestVia? && RequestRound(rt, f, s.now, c.who).Ok? {
        RequestKeepsStatuses(rt, f, s.now, c.who);
      } else if c.RequestNewRound? && c.who in f.requesters && TakeTurn(f, c.who).Ok? {
        if RequestRound(rt, TakeTurn(f, c.who).value, s.now, c.who).Ok? {
          RequestKeepsStatuses(rt, TakeTurn(f, c.who).value, s.now, c.who);
        }
      }
    }
  }

  lemma OtherFeedsKeepTerms(rt: Runtime, s: State, c: Call, id: FeedId)
    requires id in s.feeds && (c.Submit? || c.ChangeOracles?) && (c.id != id || Step(rt, s, c).result.Err?)
    ensures id in Step(rt, s, c).state.feeds && SameStatuses(s.feeds[id], Step(rt, s, c).state.feeds[id])
  {
    hide AddOracles, DisableOracles, SubmitToFeed;
  }

  lemma OtherStepKeepsTerms(rt: Runtime, s: State, c: Call, id: FeedId)
    requires id in s.feeds && id < s.feedCounter && !Submits(rt, s, c, id) && !ChangesOracles(rt, s, c, id)
    ensures id in Step(rt, s, c).state.feeds && SameStatuses(s.feeds[id], Step(rt, s, c).state.feeds[id])
  {
    if c.RequestNewRound? || c.RequestVia? {
      RequestStepKeepsTerms(rt, s, c, id);
    } else if c.Submit? || c.ChangeOracles? {
      OtherFeedsKeepTerms(rt, s, c, id);
    } else {
      hide AddOracles;
    }
  }

  lemma RequestKeepsStatuses(rt: Runtime, f: FeedState, now: BlockNumber, who: AccountId)
    requires RequestRound(rt, f, now, who).Ok?
    ensures RequestRound(rt, f, now, who).value.statuses == f.statuses
    ensures RequestRound(rt, f, now, who).value.history.accepted == f.history.accepted
  {
  }

  /** What a change of oracles does to an oracle's status. */
  lemma StatusAfterChange(rt: Runtime, s: State, c: Call, o: AccountId)
    requires c.ChangeOracles? && ChangeOraclesStep(rt, s, c).Ok?
    ensures var f := s.feeds[c.id]; var g := ChangeOraclesStep(rt, s, c).value.feeds[c.id]; var r := f.config.reportingRound;
            if o in AccountsOf(c.toAdd) then o in g.statuses && g.statuses[o] == TermFrom(f.statuses, r, o)
            else
              && (o in g.statuses <==> o in f.statuses)
              && (o in f.statuses ==>
                    g.statuses[o] == if o in c.toDisable then f.statuses[o].(endingRound := Some(r)) else f.statuses[o])
    ensures ChangeOraclesStep(rt, s, c).value.feeds[c.id].history == s.feeds[c.id].history
    ensures o in c.toDisable ==> o in EnabledOracles(s.feeds[c.id].statuses)
  {
    var f := s.feeds[c.id];
    var reduced := DisableOracles(f, c.toDisable).value;
    DisabledStatuses(f.statuses, f.config.reportingRound, c.toDisable, o);
    AddedStatuses(reduced.statuses, s.oracles, f.config.reportingRound, c.toAdd, o);
    DisableEachIff(f.statuses, f.config.reportingRound, c.toDisable);
  }

  // --- runs ---

  /** What may happen to the term of oracle `o`, and to its submissions, between `f` and `g`. */
  ghost predicate Serves(f: FeedState, g: FeedState, o: AccountId) {
    && f.history.accepted <= g.history.accepted
    && (o in f.statuses ==>
          && o in g.statuses && f.statuses[o].startingRound <= g.statuses[o].startingRound
          && forall i :: |f.history.accepted| <= i < |g.history.accepted| && g.history.accepted[i].oracle == o ==>
               f.statuses[o].startingRound <= g.history.accepted[i].round)
  }

  ghost predicate IsDisabled(f: FeedState, o: AccountId) {
    o in f.statuses && f.statuses[o].endingRound.Some?
  }

  /** The same while the oracle is disabled: its term stays as it is. */
  ghost predicate SitsOut(f: FeedState, g: FeedState, o: AccountId)
    requires IsDisabled(f, o)
  {
    && f.history.accepted <= g.history.accepted
    && o in g.statuses && g.statuses[o].endingRound == f.statuses[o].endingRound
    && forall i :: |f.history.accepted| <= i < |g.history.accepted| && g.history.accepted[i].oracle == o ==>
         g.history.accepted[i].round <= f.statuses[o].endingRound.value
  }

  lemma SubmissionServes(rt: Runtime, s: State, c: Call, id: FeedId, o: AccountId)
    requires id in s.feeds && Submits(rt, s, c, id)
    ensures var f := s.feeds[id]; var s' := Step(rt, s, c).state;
            && id in s'.feeds && Serves(f, s'.feeds[id], o)
            && (IsDisabled(f, o) && IsDisabled(s'.feeds[id], o) ==> SitsOut(f, s'.feeds[id], o))
  {
    hide Step, Submits;
    SubmitStepKeepsTerms(rt, s, c, id);
  }

  lemma ChangeServes(rt: Runtime, s: State, c: Call, id: FeedId, o: AccountId)
    requires Inv(rt, s) && id in s.feeds && ChangesOracles(rt, s, c, id)
    ensures var f := s.feeds[id]; var s' := Step(rt, s, c).state;
            && id in s'.feeds && Serves(f, s'.feeds[id], o)
            && (IsDisabled(f, o) && IsDisabled(s'.feeds[id], o) ==> SitsOut(f, s'.feeds[id], o))
  {
    hide Inv, Step, ChangeOraclesStep;
    StepOf(rt, s, c);
    FeedIsKnown(rt, s, c);
    StatusAfterChange(rt, s, c, o);
    if o in s.feeds[id].statuses {
      StartsByNow(rt, s, id, o);
    }
  }

  lemma StepServes(rt: Runtime, s: State, c: Call, id: FeedId, o: AccountId)
    requires Inv(rt, s) && id in s.feeds
    ensures var f := s.feeds[id]; var s' := Step(rt, s, c).state;
            && id in s'.feeds && Serves(f, s'.feeds[id], o)
            && (IsDisabled(f, o) && IsDisabled(s'.feeds[id], o) ==> SitsOut(f, s'.feeds[id], o))
  {
    hide Inv, Step, Submits, ChangesOracles;
    InvFeed(rt, s, id);
    if Submits(rt, s, c, id) {
      SubmissionServes(rt, s, c, id, o);
    } else if ChangesOracles(rt, s, c, id) {
      ChangeServes(rt, s, c, id, o);
    } else {
      OtherStepKeepsTerms(rt, s, c, id);
    }
  }

  lemma StartsByNow(rt: Runtime, s: State, id: FeedId, o: AccountId)
    requires Inv(rt, s) && id in s.feeds && o in s.feeds[id].statuses
    ensures TermOk(s.feeds[id].statuses[o], s.feeds[id].config.reportingRound)
  {
    assert FeedOk(rt, s, id, s.feeds[id]);
    assert StatusOk(s.feeds[id], o, s.feeds[id].statuses[o]);
  }

  lemma ServesTransitive(f: FeedState, g: FeedState, h: FeedState, o: AccountId)
    requires Serves(f, g, o) && Serves(g, h, o)
    ensures Serves(f, h, o)
  {
    assert forall i :: 0 <= i < |g.history.accepted| ==> h.history.accepted[i] == g.history.accepted[i];
  }

  lemma SitsOutTransitive(f: FeedState, g: FeedState, h: FeedState, o: AccountId)
    requires IsDisabled(f, o) && SitsOut(f, g, o) && SitsOut(g, h, o)
    ensures SitsOut(f, h, o)
  {
    assert forall i :: 0 <= i < |g.history.accepted| ==> h.history.accepted[i] == g.history.accepted[i];
  }

  /** Oracle `o` of feed `id` is disabled in every state of the run. */
  ghost predicate StaysDisabled(rt: Runtime, s: State, calls: seq<Call>, id: FeedId, o: AccountId)
    decreases |calls|
  {
    && id in s.feeds && IsDisabled(s.feeds[id], o)
    && (calls != [] ==> StaysDisabled(rt, Step(rt, s, calls[0]).state, calls[1..], id, o))
  }

  /** Along any run, an oracle that was added reports to no round before the one reported when it was added. */
  lemma {:induction false} NewOraclesStartFromNow(rt: Runtime, s: State, calls: seq<Call>, id: FeedId, o: AccountId)
    requires Inv(rt, s) && RunInRange(rt, s, calls) && id in s.feeds
    ensures id in Execute(rt, s, calls).feeds && Serves(s.feeds[id], Execute(rt, s, calls).feeds[id], o)
    decreases |calls|
  {
    hide Inv, Step, InRange, Serves, SitsOut;
    if calls == [] {
      assert Serves(s.feeds[id], s.feeds[id], o) by { ServesReflexive(s.feeds[id], o); }
    } else {
      var t := Step(rt, s, calls[0]).state;
      StepKeeps(rt, s, calls[0]);
      StepServes(rt, s, calls[0], id, o);
      NewOraclesStartFromNow(rt, t, calls[1..], id, o);
      ServesTransitive(s.feeds[id], t.feeds[id], Execute(rt, s, calls).feeds[id], o);
    }
  }

  lemma ServesReflexive(f: FeedState, o: AccountId)
    ensures Serves(f, f, o) && (IsDisabled(f, o) ==> SitsOut(f, f, o))
  {
  }

  lemma {:induction false} DisabledSitsOut(rt: Runtime, s: State, calls: seq<Call>, id: FeedId, o: AccountId)
    requires Inv(rt, s) && RunInRange(rt, s, calls) && StaysDisabled(rt, s, calls, id, o)
    ensures id in Execute(rt, s, calls).feeds && SitsOut(s.feeds[id], Execute(rt, s, calls).feeds[id], o)
    decreases |calls|
  {
    hide Inv, Step, InRange, Serves, SitsOut;
    if calls == [] {
      ServesReflexive(s.feeds[id], o);
    } else {
      var t := Step(rt, s, calls[0]).state;
      StepKeeps(rt, s, calls[0]);
      StepServes(rt, s, calls[0], id, o);
      DisabledSitsOut(rt, t, calls[1..], id, o);
      SitsOutTransitive(s.feeds[id], t.feeds[id], Execute(rt, s, calls).feeds[id], o);
    }
  }

  /**
   From the call that disables an oracle until it is added again, no submission of that oracle to a round above the one
   reported at that call is accepted, on any run.
   */
  lemma DisabledOraclesAreOut(rt: Runtime, s: State, c: Call, calls: seq<Call>, o: AccountId)
    requires RuntimeOk(rt) && Reachable(rt, s) && c.ChangeOracles? && Step(rt, s, c).result.Ok?
    requires o in c.toDisable && o !in AccountsOf(c.toAdd)
    requires RunInRange(rt, Step(rt, s, c).state, calls) && StaysDisabled(rt, Step(rt, s, c).state, calls, c.id, o)
    ensures c.id in s.feeds && c.id in Execute(rt, Step(rt, s, c).state, calls).feeds
    ensures var f := s.feeds[c.id]; var g := Execute(rt, Step(rt, s, c).state, calls).feeds[c.id];
            && f.history.accepted <= g.history.accepted
            && forall i :: |f.history.accepted| <= i < |g.history.accepted| && g.history.accepted[i].oracle == o ==>
                 g.history.accepted[i].round <= f.config.reportingRound
  {
    hide Reachable, RunInRange, Execute, ChangeOraclesStep, Step, StaysDisabled, Inv;
    ReachableThen(rt, s, c);
    ReachableInv(rt, Step(rt, s, c).state);
    StepOf(rt, s, c);
    FeedIsKnown(rt, s, c);
    StatusAfterChange(rt, s, c, o);
    DisabledSitsOut(rt, Step(rt, s, c).state, calls, c.id, o);
  }

  lemma FeedIsKnown(rt: Runtime, s: State, c: Call)
    requires c.ChangeOracles? && ChangeOraclesStep(rt, s, c).Ok?
    ensures c.id in s.feeds && c.id in ChangeOraclesStep(rt, s, c).value.feeds
  {
  }

  /** A disabled oracle that submits to a round after its last one is told so. */
  lemma DisabledIsTold(rt: Runtime, s: State, id: FeedId, o: AccountId, r: RoundId, value: Value)
    requires RuntimeOk(rt) && Reachable(rt, s) && id in s.feeds && IsDisabled(s.feeds[id], o)
    requires s.feeds[id].statuses[o].endingRound.value < r
    ensures SubmitToFeed(rt, s.feeds[id], s.now, o, r, value) == Err(OracleDisabled)
  {
    hide Reachable, Inv, OpenIfEligible, Accept;
    ReachableInv(rt, s);
    StartsByNow(rt, s, id, o);
  }
}
