/** The block numbers stored with a round are those of the events in its history. */
module Clocks {
  import opened Types
  import opened Feeds
  import opened FeedInvariant
  import opened RoundSteps
  import opened FeedSteps

  /** When the last submission for round `r` was accepted. */
  function LastAt(accepted: seq<Submission>, r: RoundId): Option<BlockNumber> {
    if accepted == [] then None
    else
      var n := |accepted| - 1;
      if accepted[n].round == r then Some(accepted[n].at) else LastAt(accepted[..n], r)
  }

  lemma LastAtAppend(accepted: seq<Submission>, s: Submission, r: RoundId)
    ensures LastAt(accepted + [s], r) == if s.round == r then Some(s.at) else LastAt(accepted, r)
  {
  }

  /**
   A round started when it was opened. It was last updated by its last submission or,
   if it carries an answer over, when the next round was opened.
   */
  ghost predicate RoundTimes(h: History, r: RoundId, round: Round) {
    && r in h.openings && round.startedAt == h.openings[r].openedAt
    && (Answered(round) ==>
          if round.answeredInRound == Some(r) then round.updatedAt == LastAt(h.accepted, r)
          else r + 1 in h.openings && round.updatedAt == Some(h.openings[r + 1].openedAt))
  }

  ghost predicate HistoryTimes(h: History, now: BlockNumber) {
    && (forall r :: r in h.openings ==> h.openings[r].openedAt <= now)
    && (forall p, r :: p in h.openings && r in h.openings && p < r ==> h.openings[p].openedAt <= h.openings[r].openedAt)
    && (forall i :: 0 <= i < |h.accepted| ==> h.accepted[i].at <= now)
    && AfterOpening(h, h.accepted)
  }

  ghost predicate AfterOpening(h: History, accepted: seq<Submission>) {
    forall i :: 0 <= i < |accepted| ==>
      accepted[i].round in h.openings && h.openings[accepted[i].round].openedAt <= accepted[i].at
  }

  ghost predicate ClockOk(f: FeedState, now: BlockNumber) {
    && HistoryTimes(f.history, now)
    && (forall r :: r in f.rounds && r > 0 ==> RoundTimes(f.history, r, f.rounds[r]))
  }

  lemma {:induction false} LastAtInOrder(h: History, now: BlockNumber, accepted: seq<Submission>, r: RoundId)
    requires accepted <= h.accepted && HistoryTimes(h, now) && LastAt(accepted, r).Some? && r in h.openings
    ensures h.openings[r].openedAt <= LastAt(accepted, r).value <= now
  {
    var n := |accepted| - 1;
    assert accepted[n] == h.accepted[n];
    if accepted[n].round != r {
      LastAtInOrder(h, now, accepted[..n], r);
    }
  }

  /** A round is updated no earlier than it starts, and not in the future. */
  lemma TimesInOrder(f: FeedState, now: BlockNumber, r: RoundId)
    requires ClockOk(f, now) && r in f.rounds && r > 0 && Answered(f.rounds[r])
    ensures f.rounds[r].startedAt <= f.rounds[r].updatedAt.value <= now
  {
    assert RoundTimes(f.history, r, f.rounds[r]);
    if f.rounds[r].answeredInRound == Some(r) {
      LastAtInOrder(f.history, now, f.history.accepted, r);
    }
  }

  lemma ClockFrame(f: FeedState, g: FeedState, now: BlockNumber, later: BlockNumber)
    requires ClockOk(f, now) && g.rounds == f.rounds && g.history == f.history && now <= later
    ensures ClockOk(g, later)
  {
  }

  lemma ClockPrune(f: FeedState, target: RoundId, now: BlockNumber)
    requires ClockOk(f, now)
    ensures ClockOk(PrunedTo(f, target), now)
  {
  }

  lemma CarriedNotOwn(rt: Runtime, f: FeedState)
    requires FeedInv(rt, f) && f.config.reportingRound in f.details && Previous(f.config.reportingRound) in f.rounds
    ensures f.rounds[Previous(f.config.reportingRound)].answeredInRound != Some(f.config.reportingRound)
  {
  }

  /** What closing may have done to the reporting round by the time the next one opens. */
  ghost predicate ClosedOrSame(r: RoundId, before: Round, after: Round, now: BlockNumber) {
    || after == before
    || (after.startedAt == before.startedAt && after.updatedAt == Some(now) && after.answeredInRound != Some(r))
  }

  lemma ClockReady(rt: Runtime, f: FeedState, now: BlockNumber)
    requires FeedInv(rt, f) && ReadyState(rt, f, now).Ok?
    ensures var g := ReadyState(rt, f, now).value; var r := f.config.reportingRound;
            && g.history == f.history && g.config == f.config && g.rounds.Keys == f.rounds.Keys
            && (forall p :: p in f.rounds && p != r ==> g.rounds[p] == f.rounds[p])
            && (r in f.rounds ==> ClosedOrSame(r, f.rounds[r], g.rounds[r], now))
  {
    hide FeedInv;
    if IsTimedOut(rt, f, now, f.config.reportingRound) {
      CarriedNotOwn(rt, f);
    }
  }

  lemma ClockHistoryOpen(f: FeedState, now: BlockNumber, starter: Starter)
    requires OpeningsOk(f) && HistoryTimes(f.history, now) && f.config.reportingRound < U32_MAX
    ensures HistoryTimes(NextOpened(f, now, starter).history, now)
  {
  }

  lemma ClockRoundOpen(f: FeedState, g: FeedState, now: BlockNumber, starter: Starter, p: RoundId)
    requires OpeningsOk(f) && f.config.reportingRound < U32_MAX && p in f.rounds && p in g.rounds && p > 0
    requires g.history == f.history && g.config == f.config && RoundTimes(f.history, p, f.rounds[p])
    requires if p == f.config.reportingRound then ClosedOrSame(p, f.rounds[p], g.rounds[p], now) else g.rounds[p] == f.rounds[p]
    ensures var h := NextOpened(g, now, starter);
            p in h.rounds && RoundTimes(h.history, p, h.rounds[p])
  {
  }

  lemma ClockOpenReady(f: FeedState, g: FeedState, now: BlockNumber, starter: Starter)
    requires OpeningsOk(f) && ClockOk(f, now) && f.config.reportingRound < U32_MAX
    requires g.history == f.history && g.config == f.config && g.rounds.Keys == f.rounds.Keys
    requires var r := f.config.reportingRound;
             && (forall p :: p in f.rounds && p != r ==> g.rounds[p] == f.rounds[p])
             && (r in f.rounds ==> ClosedOrSame(r, f.rounds[r], g.rounds[r], now))
    ensures ClockOk(NextOpened(g, now, starter), now)
  {
    var h := NextOpened(g, now, starter);
    ClockHistoryOpen(f, now, starter);
    assert h.history == NextOpened(f, now, starter).history;
    hide HistoryTimes;
    forall p | p in h.rounds && p > 0 ensures RoundTimes(h.history, p, h.rounds[p]) {
      if p in f.rounds {
        assert RoundTimes(f.history, p, f.rounds[p]);
        ClockRoundOpen(f, g, now, starter, p);
      }
    }
  }

  lemma ClockOpen(rt: Runtime, f: FeedState, now: BlockNumber, starter: Starter)
    requires FeedInv(rt, f) && ClockOk(f, now) && f.config.reportingRound < U32_MAX
    requires ReadyState(rt, f, now).Ok?
    ensures ClockOk(NextOpened(ReadyState(rt, f, now).value, now, starter), now)
  {
    hide RoundSide, SubmissionsOk, CountsOk, StatusesOk, OracleCountOk, OpeningsOk, ReadyState, ClockOk, ClosedOrSame;
    ClockReady(rt, f, now);
    ClockOpenReady(f, ReadyState(rt, f, now).value, now, starter);
  }

  lemma ClockRequest(rt: Runtime, f: FeedState, now: BlockNumber, requester: AccountId)
    requires FeedInv(rt, f) && ClockOk(f, now) && RequestRound(rt, f, now, requester).Ok?
    ensures ClockOk(RequestRound(rt, f, now, requester).value, now)
  {
    hide FeedInv, ClockOk;
    ClockOpen(rt, f, now, ByRequest(requester));
    ReadyKeepsConfig(rt, f, now);
  }

  lemma ReadyKeepsConfig(rt: Runtime, f: FeedState, now: BlockNumber)
    requires ReadyState(rt, f, now).Ok?
    ensures ReadyState(rt, f, now).value.config == f.config && ReadyState(rt, f, now).value.statuses == f.statuses
  {
  }

  lemma ClockOpenIfEligible(rt: Runtime, f: FeedState, now: BlockNumber, oracle: AccountId, r: RoundId)
    requires FeedInv(rt, f) && ClockOk(f, now) && !Reopens(f, oracle, r) && oracle in f.statuses
    requires OpenIfEligible(rt, f, now, oracle, r).Ok?
    ensures ClockOk(OpenIfEligible(rt, f, now, oracle, r).value, now)
  {
    hide FeedInv, ClockOk;
    if MayStart(f, oracle, r) {
      ReadyKeepsConfig(rt, f, now);
      ClockOpen(rt, f, now, ByOracle(oracle));
      var g := NextOpened(ReadyState(rt, f, now).value, now, ByOracle(oracle));
      ClockFrame(g, MarkStarted(g, oracle, r), now, now);
    }
  }

  lemma ClockRecord(rt: Runtime, f: FeedState, now: BlockNumber, oracle: AccountId, r: RoundId, value: Value)
    requires OpenOk(rt, f) && ClockOk(f, now) && Accepting(f, oracle, r)
    requires |f.details[r].submissions| + 1 < f.details[r].countBounds.min
    ensures ClockOk(Recorded(f, now, oracle, r, value, f.details[r].submissions + [value]), now)
  {
    var g := Recorded(f, now, oracle, r, value, f.details[r].submissions + [value]);
    assert OpenRoundOk(rt, f, r);
    forall p | p in g.rounds && p > 0 ensures RoundTimes(g.history, p, g.rounds[p]) {
      assert RoundTimes(f.history, p, f.rounds[p]);
      LastAtAppend(f.history.accepted, Submission(oracle, r, value, now), p);
    }
  }

  lemma ClockAnswer(rt: Runtime, f: FeedState, now: BlockNumber, oracle: AccountId, r: RoundId, value: Value)
    requires OpenOk(rt, f) && ClockOk(f, now) && Accepting(f, oracle, r)
    ensures ClockOk(AnsweredState(rt, f, now, oracle, r, value), now)
  {
    assert OpenRoundOk(rt, f, r);
    hide OpenOk, OpenRoundOk;
    var g := AnsweredState(rt, f, now, oracle, r, value);
    forall p | p in g.rounds && p > 0 ensures RoundTimes(g.history, p, g.rounds[p]) {
      assert RoundTimes(f.history, p, f.rounds[p]);
      LastAtAppend(f.history.accepted, Submission(oracle, r, value, now), p);
    }
  }

  lemma ClockAccept(rt: Runtime, f: FeedState, now: BlockNumber, oracle: AccountId, r: RoundId, value: Value)
    requires OpenOk(rt, f) && ClockOk(f, now) && Accepting(f, oracle, r) && Accept(rt, f, now, oracle, r, value).Ok?
    ensures ClockOk(Accept(rt, f, now, oracle, r, value).value, now)
  {
    hide OpenOk, ClockOk;
    if |f.details[r].submissions| + 1 < f.details[r].countBounds.min {
      ClockRecord(rt, f, now, oracle, r, value);
    } else {
      ClockAnswer(rt, f, now, oracle, r, value);
      var g := AnsweredState(rt, f, now, oracle, r, value);
      PruneOldestIsPrunedTo(g);
      if PruneOldest(g) != g {
        ClockPrune(g, g.config.nextRoundToPrune + 1, now);
      }
    }
  }

  lemma ClockSubmit(rt: Runtime, f: FeedState, now: BlockNumber, oracle: AccountId, r: RoundId, value: Value)
    requires FeedInv(rt, f) && ClockOk(f, now) && !Reopens(f, oracle, r) && SubmitToFeed(rt, f, now, oracle, r, value).Ok?
    ensures ClockOk(SubmitToFeed(rt, f, now, oracle, r, value).value.0, now)
  {
    hide FeedInv, ClockOk, WindowOk, OpenOk, EnsureValidRound, OpenIfEligible, Accept, Accepting;
    PartsOf(rt, f);
    ClockOpenIfEligible(rt, f, now, oracle, r);
    OpenIfEligibleKeeps(rt, f, now, oracle, r);
    var g := OpenIfEligible(rt, f, now, oracle, r).value;
    PartsOf(rt, g);
    AcceptingInOpened(rt, f, now, oracle, r, value);
    ClockAccept(rt, g, now, oracle, r, value);
  }
}
