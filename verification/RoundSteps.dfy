/** Opening, answering, closing and pruning a round keep the feed invariant. */
module RoundSteps {
  import opened Types
  import opened Medians
  import opened Feeds
  import opened FeedInvariant

  ghost predicate SameOracleSide(f: FeedState, g: FeedState) {
    && g.history == f.history && g.statuses == f.statuses
    && g.config.minValue == f.config.minValue && g.config.maxValue == f.config.maxValue
    && g.config.reportingRound == f.config.reportingRound && g.config.oracleCount == f.config.oracleCount
  }

  lemma OracleSideFrame(rt: Runtime, f: FeedState, g: FeedState)
    requires OracleSide(rt, f) && SameOracleSide(f, g)
    ensures OracleSide(rt, g)
  {
  }

  ghost predicate SameRoundSide(f: FeedState, g: FeedState) {
    && g.rounds == f.rounds && g.details == f.details && g.history == f.history
    && g.config.reportingRound == f.config.reportingRound && g.config.latestRound == f.config.latestRound
    && g.config.nextRoundToPrune == f.config.nextRoundToPrune && g.config.firstValidRound == f.config.firstValidRound
  }

  lemma OpenFrame(rt: Runtime, f: FeedState, g: FeedState)
    requires OpenOk(rt, f) && SameRoundSide(f, g)
    ensures OpenOk(rt, g)
  {
  }

  lemma RoundSideFrame(rt: Runtime, f: FeedState, g: FeedState)
    requires RoundSide(rt, f) && SameRoundSide(f, g) && BoundsOk(g.config.countBounds)
    ensures RoundSide(rt, g)
  {
    OpenFrame(rt, f, g);
    hide OpenOk;
    assert forall r: RoundId :: InWindow(g.config, r) == InWindow(f.config, r);
  }

  lemma UpToReporting(f: FeedState)
    requires WindowOk(f)
    ensures forall r :: r in f.rounds ==> r <= f.config.reportingRound
    ensures forall r :: r in f.details ==> 1 <= f.config.nextRoundToPrune ==> 1 <= r <= f.config.reportingRound
  {
  }

  // --- closing a timed out round ---

  lemma CloseKeepsWindow(rt: Runtime, f: FeedState, now: BlockNumber)
    requires CountersOk(f.config) && WindowOk(f) && ProvenanceOk(rt, f) && f.config.reportingRound in f.details
    requires CloseTimedOutRound(f, now, f.config.reportingRound).Ok?
    ensures var g := CloseTimedOutRound(f, now, f.config.reportingRound).value;
            WindowOk(g) && Answered(g.rounds[f.config.reportingRound]) && ProvenanceOk(rt, g)
  {
    var r := f.config.reportingRound;
    var g := CloseTimedOutRound(f, now, r).value;
    assert InWindow(f.config, r);
    assert Previous(r) in f.rounds && Answered(f.rounds[Previous(r)]);
    assert g.rounds.Keys == f.rounds.Keys;
    assert SoundAnswer(rt, f.history, Previous(r), f.rounds[Previous(r)]);
  }

  lemma CloseKeeps(rt: Runtime, f: FeedState, now: BlockNumber)
    requires FeedInv(rt, f)
    requires f.config.reportingRound in f.details
    requires CloseTimedOutRound(f, now, f.config.reportingRound).Ok?
    ensures var g := CloseTimedOutRound(f, now, f.config.reportingRound).value;
            FeedInv(rt, g) && Answered(g.rounds[f.config.reportingRound])
  {
    hide ProvenanceOk, CarryOk, OpenOk, SubmissionsOk, CountsOk, OpeningsOk, StatusesOk, OracleCountOk;
    UpToReporting(f);
    hide WindowOk;
    CloseKeepsWindow(rt, f, now);
    CloseCarries(rt, f, now);
    PredecessorNotOwn(rt, f);
    CloseOpen(rt, f, now);
    OracleSideFrame(rt, f, CloseTimedOutRound(f, now, f.config.reportingRound).value);
  }

  lemma CloseCarries(rt: Runtime, f: FeedState, now: BlockNumber)
    requires CarryOk(f) && 1 <= f.config.reportingRound
    requires forall r :: r in f.rounds ==> r <= f.config.reportingRound
    requires CloseTimedOutRound(f, now, f.config.reportingRound).Ok?
    ensures CarryOk(CloseTimedOutRound(f, now, f.config.reportingRound).value)
  {
  }

  /** The round before the reporting one was not answered in the reporting one. */
  lemma PredecessorNotOwn(rt: Runtime, f: FeedState)
    requires WindowOk(f) && ProvenanceOk(rt, f) && 1 <= f.config.reportingRound
    requires Previous(f.config.reportingRound) in f.rounds
    ensures f.rounds[Previous(f.config.reportingRound)].answeredInRound != Some(f.config.reportingRound)
  {
  }

  lemma CloseOpen(rt: Runtime, f: FeedState, now: BlockNumber)
    requires OpenOk(rt, f) && 1 <= f.config.reportingRound
    requires CloseTimedOutRound(f, now, f.config.reportingRound).Ok?
    requires f.rounds[Previous(f.config.reportingRound)].answeredInRound != Some(f.config.reportingRound)
    ensures OpenOk(rt, CloseTimedOutRound(f, now, f.config.reportingRound).value)
  {
  }

  // --- opening the next round ---

  /** The reporting round has an answer, so the next one can be opened behind it. */
  ghost predicate ReadyToOpen(f: FeedState) {
    && f.config.reportingRound < U32_MAX
    && f.config.reportingRound in f.rounds
    && Answered(f.rounds[f.config.reportingRound])
  }

  ghost function NextOpened(f: FeedState, now: BlockNumber, starter: Starter): FeedState
    requires f.config.reportingRound < U32_MAX
  {
    Opened(f, now, f.config.reportingRound + 1, starter)
  }

  lemma OpenKeepsWindow(f: FeedState, now: BlockNumber, starter: Starter)
    requires CountersOk(f.config) && WindowOk(f) && ReadyToOpen(f)
    ensures CountersOk(NextOpened(f, now, starter).config) && WindowOk(NextOpened(f, now, starter))
  {
    var g := NextOpened(f, now, starter);
    forall r | r in g.details ensures InWindow(g.config, r) {
      assert r in f.details ==> InWindow(f.config, r);
    }
    forall r ensures r in g.rounds <==> r == 0 || InWindow(g.config, r) {
      assert r in f.rounds <==> r == 0 || InWindow(f.config, r);
    }
  }

  lemma OpenKeepsCarry(f: FeedState, now: BlockNumber, starter: Starter)
    requires WindowOk(f) && CarryOk(f) && ReadyToOpen(f)
    ensures CarryOk(NextOpened(f, now, starter))
  {
    UpToReporting(f);
    hide WindowOk;
  }

  lemma OpenKeepsAnswers(rt: Runtime, f: FeedState, now: BlockNumber, starter: Starter)
    requires WindowOk(f) && ProvenanceOk(rt, f) && CarryOk(f) && OpeningsOk(f) && ReadyToOpen(f)
    ensures ProvenanceOk(rt, NextOpened(f, now, starter)) && CarryOk(NextOpened(f, now, starter))
  {
    OpenKeepsCarry(f, now, starter);
    hide CarryOk, FairStarts, StartedAtLeast, WindowOk;
    var g := NextOpened(f, now, starter);
    forall r | r in g.rounds && Answered(g.rounds[r]) ensures SoundAnswer(rt, g.history, r, g.rounds[r]) {
      assert SoundAnswer(rt, f.history, r, f.rounds[r]);
    }
  }

  lemma NothingAcceptedYet(f: FeedState)
    requires SubmissionsOk(f) && OpeningsOk(f) && f.config.reportingRound < U32_MAX
    ensures ValuesOf(f.history.accepted, f.config.reportingRound + 1) == []
  {
    forall i | 0 <= i < |f.history.accepted| ensures f.history.accepted[i].round != f.config.reportingRound + 1 {
      assert SubmissionOk(f, f.history.accepted[i]);
    }
    NoValues(f.history.accepted, f.config.reportingRound + 1);
  }

  lemma OpenKeepsOpen(rt: Runtime, f: FeedState, now: BlockNumber, starter: Starter)
    requires BoundsOk(f.config.countBounds) && f.config.reportingRound < U32_MAX
    requires OpenOk(rt, f) && CountsOk(f.history) && ValuesOf(f.history.accepted, f.config.reportingRound + 1) == []
    requires forall r :: r in f.details ==> r <= f.config.reportingRound
    requires forall r :: r in f.rounds ==> r <= f.config.reportingRound
    ensures OpenOk(rt, NextOpened(f, now, starter)) && CountsOk(NextOpened(f, now, starter).history)
  {
    var g := NextOpened(f, now, starter);
    forall r | r in g.details ensures OpenRoundOk(rt, g, r) {
      if r in f.details {
        assert OpenRoundOk(rt, f, r);
      }
    }
  }

  lemma OpenKeepsSubmissions(rt: Runtime, f: FeedState, now: BlockNumber, starter: Starter)
    requires SubmissionsOk(f) && ReadyToOpen(f)
    ensures SubmissionsOk(NextOpened(f, now, starter))
  {
  }

  lemma RequestKeepsFairness(f: FeedState, now: BlockNumber, requester: AccountId)
    requires OpeningsOk(f) && StatusesOk(f) && f.config.reportingRound < U32_MAX
    ensures var g := NextOpened(f, now, ByRequest(requester)); OpeningsOk(g) && StatusesOk(g)
  {
  }

  lemma OpenKeepsOracleCount(rt: Runtime, f: FeedState, now: BlockNumber, starter: Starter)
    requires OracleCountOk(rt, f) && f.config.reportingRound < U32_MAX
    ensures OracleCountOk(rt, NextOpened(f, now, starter))
  {
  }

  /** Whoever opens the round, everything but the record of starts is kept. */
  lemma OpenKeepsMost(rt: Runtime, f: FeedState, now: BlockNumber, starter: Starter)
    requires FeedInv(rt, f) && ReadyToOpen(f)
    ensures var g := NextOpened(f, now, starter);
            RoundSide(rt, g) && SubmissionsOk(g) && CountsOk(g.history) && OracleCountOk(rt, g)
  {
    hide WindowOk, ProvenanceOk, CarryOk, OpenOk, SubmissionsOk, CountsOk, OpeningsOk, StatusesOk, OracleCountOk;
    OpenKeepsWindow(f, now, starter);
    OpenKeepsAnswers(rt, f, now, starter);
    NothingAcceptedYet(f);
    UpToReporting(f);
    OpenKeepsOpen(rt, f, now, starter);
    OpenKeepsSubmissions(rt, f, now, starter);
    OpenKeepsOracleCount(rt, f, now, starter);
  }

  lemma RequestedOpenKeeps(rt: Runtime, f: FeedState, now: BlockNumber, requester: AccountId)
    requires FeedInv(rt, f) && ReadyToOpen(f)
    ensures FeedInv(rt, NextOpened(f, now, ByRequest(requester)))
  {
    hide RoundSide, SubmissionsOk, CountsOk, OpeningsOk, StatusesOk, OracleCountOk;
    OpenKeepsMost(rt, f, now, ByRequest(requester));
    RequestKeepsFairness(f, now, requester);
  }

  lemma MarkStartedKeepsOthers(rt: Runtime, f: FeedState, oracle: AccountId, r: RoundId)
    requires RoundSide(rt, f) && SubmissionsOk(f) && OracleCountOk(rt, f) && oracle in f.statuses
    ensures var g := MarkStarted(f, oracle, r);
            RoundSide(rt, g) && SubmissionsOk(g) && OracleCountOk(rt, g)
  {
    assert BoundsOk(f.config.countBounds);
    hide RoundSide;
    var g := MarkStarted(f, oracle, r);
    RoundSideFrame(rt, f, g);
    assert EnabledOracles(g.statuses) == EnabledOracles(f.statuses);
    forall i | 0 <= i < |g.history.accepted| ensures SubmissionOk(g, g.history.accepted[i]) {
      assert SubmissionOk(f, f.history.accepted[i]);
    }
  }

  /** Eligibility is what keeps starts by one oracle apart. */
  lemma StartIsFair(f: FeedState, now: BlockNumber, oracle: AccountId)
    requires OpeningsOk(f) && f.config.reportingRound < U32_MAX
    requires oracle in f.statuses && MayStart(f, oracle, f.config.reportingRound + 1)
    ensures FairStarts(NextOpened(f, now, ByOracle(oracle)).history.openings)
  {
  }

  lemma StartKeepsFairness(rt: Runtime, f: FeedState, now: BlockNumber, oracle: AccountId)
    requires OpeningsOk(f) && StatusesOk(f) && f.config.reportingRound < U32_MAX
    requires oracle in f.statuses && MayStart(f, oracle, f.config.reportingRound + 1)
    ensures var g := MarkStarted(NextOpened(f, now, ByOracle(oracle)), oracle, f.config.reportingRound + 1);
            OpeningsOk(g) && StatusesOk(g)
  {
    StartIsFair(f, now, oracle);
    StartKeepsStatuses(f, now, oracle);
    hide FairStarts, MayStart, StatusesOk;
    var n := f.config.reportingRound + 1;
    var g := MarkStarted(NextOpened(f, now, ByOracle(oracle)), oracle, n);
    forall r | r in g.history.openings && g.history.openings[r].starter.ByOracle?
      ensures StartedAtLeast(g.statuses, g.history.openings[r].starter.oracle, r)
    {
      if r != n {
        assert StartedAtLeast(f.statuses, f.history.openings[r].starter.oracle, r);
      }
    }
  }

  lemma StartKeepsStatuses(f: FeedState, now: BlockNumber, oracle: AccountId)
    requires OpeningsOk(f) && StatusesOk(f) && f.config.reportingRound < U32_MAX && oracle in f.statuses
    ensures StatusesOk(MarkStarted(NextOpened(f, now, ByOracle(oracle)), oracle, f.config.reportingRound + 1))
  {
    hide FairStarts, StartedAtLeast;
    var g := MarkStarted(NextOpened(f, now, ByOracle(oracle)), oracle, f.config.reportingRound + 1);
    forall o | o in g.statuses ensures StatusOk(g, o, g.statuses[o]) {
      assert StatusOk(f, o, f.statuses[o]);
    }
  }

  lemma StartedOpenKeeps(rt: Runtime, f: FeedState, now: BlockNumber, oracle: AccountId)
    requires FeedInv(rt, f) && ReadyToOpen(f)
    requires oracle in f.statuses && MayStart(f, oracle, f.config.reportingRound + 1)
    ensures FeedInv(rt, MarkStarted(NextOpened(f, now, ByOracle(oracle)), oracle, f.config.reportingRound + 1))
  {
    hide RoundSide, WindowOk, OpenOk, SubmissionsOk, CountsOk, OpeningsOk, StatusesOk, OracleCountOk;
    PartsOf(rt, f);
    OpenKeepsMost(rt, f, now, ByOracle(oracle));
    MarkStartedKeepsOthers(rt, NextOpened(f, now, ByOracle(oracle)), oracle, f.config.reportingRound + 1);
    StartKeepsFairness(rt, f, now, oracle);
  }

  /** The state in which `InitializeRound` opens the next round: the reporting round closed if timed out. */
  ghost function ReadyState(rt: Runtime, f: FeedState, now: BlockNumber): Result<FeedState> {
    var r := f.config.reportingRound;
    if IsTimedOut(rt, f, now, r) then CloseTimedOutRound(f, now, r) else Ok(f)
  }

  lemma ReadyStateKeeps(rt: Runtime, f: FeedState, now: BlockNumber)
    requires FeedInv(rt, f) && f.config.reportingRound < U32_MAX
    requires IsSupersedable(rt, f, now, f.config.reportingRound)
    requires ReadyState(rt, f, now).Ok?
    ensures var g := ReadyState(rt, f, now).value;
            FeedInv(rt, g) && ReadyToOpen(g) && g.statuses == f.statuses
            && g.config == f.config && g.history == f.history
  {
    var r := f.config.reportingRound;
    if IsTimedOut(rt, f, now, r) {
      CloseKeeps(rt, f, now);
    } else if r == 0 {
      assert Answered(f.rounds[f.config.latestRound]);
    }
  }

  // --- accepting a submission ---

  /** What `EnsureValidRound` leaves true of a round that accepts the submission. */
  ghost predicate Accepting(f: FeedState, oracle: AccountId, r: RoundId) {
    && oracle in f.statuses && r in f.details && r in f.rounds
    && (f.statuses[oracle].lastReportedRound.Some? ==> f.statuses[oracle].lastReportedRound.value < r)
    && (r == f.config.reportingRound
        || (r + 1 == f.config.reportingRound && r + 1 in f.rounds && !Answered(f.rounds[r + 1])))
  }

  ghost predicate InBounds(c: FeedConfig, value: Value) {
    c.minValue <= value <= c.maxValue
  }

  lemma RecordKeepsCounts(rt: Runtime, f: FeedState, now: BlockNumber, oracle: AccountId, r: RoundId, value: Value)
    requires OpenOk(rt, f) && CountsOk(f.history) && r in f.details
    ensures CountsOk(f.history.(accepted := f.history.accepted + [Submission(oracle, r, value, now)]))
  {
  }

  lemma RecordKeepsSubmissions(rt: Runtime, f: FeedState, now: BlockNumber, oracle: AccountId, r: RoundId, value: Value, submissions: seq<Value>)
    requires OpenOk(rt, f) && SubmissionsOk(f) && Accepting(f, oracle, r) && InBounds(f.config, value)
    ensures SubmissionsOk(Recorded(f, now, oracle, r, value, submissions))
  {
  }

  lemma RecordKeepsVoices(rt: Runtime, f: FeedState, now: BlockNumber, oracle: AccountId, r: RoundId, value: Value, submissions: seq<Value>)
    requires OpenOk(rt, f) && SubmissionsOk(f) && OpeningsOk(f) && StatusesOk(f) && OracleCountOk(rt, f)
    requires Accepting(f, oracle, r) && InBounds(f.config, value)
    ensures var g := Recorded(f, now, oracle, r, value, submissions);
            SubmissionsOk(g) && OpeningsOk(g) && StatusesOk(g) && OracleCountOk(rt, g)
  {
    RecordKeepsSubmissions(rt, f, now, oracle, r, value, submissions);
    hide SubmissionsOk, OpenOk;
    var g := Recorded(f, now, oracle, r, value, submissions);
    assert EnabledOracles(g.statuses) == EnabledOracles(f.statuses);
    forall p | p in g.history.openings && g.history.openings[p].starter.ByOracle?
      ensures StartedAtLeast(g.statuses, g.history.openings[p].starter.oracle, p)
    {
      assert StartedAtLeast(f.statuses, f.history.openings[p].starter.oracle, p);
    }
    forall o | o in g.statuses ensures StatusOk(g, o, g.statuses[o]) {
      RecordKeepsStatus(f, now, oracle, r, value, submissions, o);
    }
  }

  lemma RecordKeepsStatus(
    f: FeedState, now: BlockNumber, oracle: AccountId, r: RoundId, value: Value, submissions: seq<Value>, o: AccountId)
    requires StatusesOk(f) && Accepting(f, oracle, r) && o in f.statuses
    ensures var g := Recorded(f, now, oracle, r, value, submissions); StatusOk(g, o, g.statuses[o])
  {
    var g := Recorded(f, now, oracle, r, value, submissions);
    assert StatusOk(f, o, f.statuses[o]);
    var t := g.statuses[o];
    if t.lastReportedRound.Some? {
      ReportedExtends(f.history.accepted, Submission(oracle, r, value, now), o, t.lastReportedRound.value, t.latestSubmission.value);
    }
  }

  lemma AnsweredNoLater(rt: Runtime, f: FeedState, r: RoundId)
    requires ProvenanceOk(rt, f) && r in f.rounds && Answered(f.rounds[r])
    ensures f.rounds[r].answeredInRound.value <= r
  {
  }

  lemma SoundOf(rt: Runtime, f: FeedState, p: RoundId)
    requires ProvenanceOk(rt, f) && p in f.rounds && Answered(f.rounds[p])
    ensures SoundAnswer(rt, f.history, p, f.rounds[p])
  {
  }

  lemma SoundAfterSubmission(rt: Runtime, h: History, s: Submission, p: RoundId, round: Round)
    requires Answered(round) && SoundAnswer(rt, h, p, round) && round.answeredInRound.value != s.round
    ensures SoundAnswer(rt, h.(accepted := h.accepted + [s]), p, round)
  {
  }

  /** No stored answer other than the round's own refers to a round that still accepts submissions. */
  lemma OthersUnaffected(rt: Runtime, f: FeedState, now: BlockNumber, oracle: AccountId, r: RoundId, value: Value, p: RoundId)
    requires WindowOk(f) && ProvenanceOk(rt, f) && Accepting(f, oracle, r)
    requires p in f.rounds && p != r && Answered(f.rounds[p])
    ensures SoundAnswer(rt, f.history.(accepted := f.history.accepted + [Submission(oracle, r, value, now)]), p, f.rounds[p])
  {
    hide SoundAnswer, ProvenanceOk, WindowOk;
    SoundOf(rt, f, p);
    AnsweredNoLater(rt, f, p);
    UpToReporting(f);
    SoundAfterSubmission(rt, f.history, Submission(oracle, r, value, now), p, f.rounds[p]);
  }

  lemma RecordKeepsOpen(rt: Runtime, f: FeedState, now: BlockNumber, oracle: AccountId, r: RoundId, value: Value)
    requires OpenOk(rt, f) && Accepting(f, oracle, r)
    requires |f.details[r].submissions| + 1 < f.details[r].countBounds.min
    ensures OpenOk(rt, Recorded(f, now, oracle, r, value, f.details[r].submissions + [value]))
  {
    var g := Recorded(f, now, oracle, r, value, f.details[r].submissions + [value]);
    forall p | p in g.details ensures OpenRoundOk(rt, g, p) {
      assert OpenRoundOk(rt, f, p);
      ValuesAppend(f.history.accepted, Submission(oracle, r, value, now), p);
    }
  }

  lemma RecordKeepsRounds(rt: Runtime, f: FeedState, now: BlockNumber, oracle: AccountId, r: RoundId, value: Value)
    requires WindowOk(f) && ProvenanceOk(rt, f) && CarryOk(f) && OpenOk(rt, f) && Accepting(f, oracle, r)
    requires |f.details[r].submissions| + 1 < f.details[r].countBounds.min
    ensures var g := Recorded(f, now, oracle, r, value, f.details[r].submissions + [value]);
            WindowOk(g) && ProvenanceOk(rt, g) && CarryOk(g)
  {
    var g := Recorded(f, now, oracle, r, value, f.details[r].submissions + [value]);
    assert OpenRoundOk(rt, f, r);
    forall p | p in g.rounds && Answered(g.rounds[p]) ensures SoundAnswer(rt, g.history, p, g.rounds[p]) {
      OthersUnaffected(rt, f, now, oracle, r, value, p);
    }
  }

  lemma RecordBelowMinimumKeeps(rt: Runtime, f: FeedState, now: BlockNumber, oracle: AccountId, r: RoundId, value: Value)
    requires FeedInv(rt, f) && Accepting(f, oracle, r) && InBounds(f.config, value)
    requires |f.details[r].submissions| + 1 < f.details[r].countBounds.min
    ensures FeedInv(rt, Recorded(f, now, oracle, r, value, f.details[r].submissions + [value]))
  {
    hide WindowOk, ProvenanceOk, CarryOk, OpenOk, SubmissionsOk, CountsOk, OpeningsOk, StatusesOk, OracleCountOk;
    RecordKeepsVoices(rt, f, now, oracle, r, value, f.details[r].submissions + [value]);
    RecordKeepsCounts(rt, f, now, oracle, r, value);
    RecordKeepsRounds(rt, f, now, oracle, r, value);
    RecordKeepsOpen(rt, f, now, oracle, r, value);
  }

  ghost function AnsweredState(rt: Runtime, f: FeedState, now: BlockNumber, oracle: AccountId, r: RoundId, value: Value): FeedState
    requires Accepting(f, oracle, r)
  {
    var submissions := f.details[r].submissions + [value];
    Answer(Recorded(f, now, oracle, r, value, Sort(submissions)), now, r, Median(submissions, rt.valueMax))
  }

  lemma AnswerKeepsWindow(rt: Runtime, f: FeedState, now: BlockNumber, oracle: AccountId, r: RoundId, value: Value)
    requires CountersOk(f.config) && WindowOk(f) && Accepting(f, oracle, r)
    ensures var g := AnsweredState(rt, f, now, oracle, r, value); CountersOk(g.config) && WindowOk(g)
  {
    var g := AnsweredState(rt, f, now, oracle, r, value);
    assert InWindow(f.config, r);
    assert Answered(f.rounds[f.config.latestRound]);
    assert g.rounds.Keys == f.rounds.Keys;
  }

  lemma OwnAnswerIsSound(rt: Runtime, f: FeedState, now: BlockNumber, oracle: AccountId, r: RoundId, value: Value)
    requires OpenOk(rt, f) && Accepting(f, oracle, r) && 1 <= r
    requires |f.details[r].submissions| + 1 >= f.details[r].countBounds.min
    ensures var g := AnsweredState(rt, f, now, oracle, r, value);
            Answered(g.rounds[r]) && SoundAnswer(rt, g.history, r, g.rounds[r])
  {
    hide Sort, Median;
    assert OpenRoundOk(rt, f, r);
    hide OpenOk;
    var g := AnsweredState(rt, f, now, oracle, r, value);
    ValuesAppend(f.history.accepted, Submission(oracle, r, value, now), r);
    var values := ValuesOf(g.history.accepted, r);
    MedianIgnoresOrder(f.details[r].submissions + [value], values, rt.valueMax);
    assert |values| == |multiset(values)| == |f.details[r].submissions| + 1;
  }

  lemma AnswerIsSound(rt: Runtime, f: FeedState, now: BlockNumber, oracle: AccountId, r: RoundId, value: Value)
    requires FeedInv(rt, f) && Accepting(f, oracle, r)
    requires |f.details[r].submissions| + 1 >= f.details[r].countBounds.min
    ensures ProvenanceOk(rt, AnsweredState(rt, f, now, oracle, r, value))
  {
    hide WindowOk, OpenOk, SoundAnswer, Sort, Median, CarryOk, OracleSide;
    UpToReporting(f);
    var g := AnsweredState(rt, f, now, oracle, r, value);
    OwnAnswerIsSound(rt, f, now, oracle, r, value);
    forall p | p in g.rounds && Answered(g.rounds[p]) ensures SoundAnswer(rt, g.history, p, g.rounds[p]) {
      if p != r {
        OthersUnaffected(rt, f, now, oracle, r, value, p);
      }
    }
  }

  /** Answering changes the answered round alone. */
  lemma AnsweredRounds(rt: Runtime, f: FeedState, now: BlockNumber, oracle: AccountId, r: RoundId, value: Value)
    requires Accepting(f, oracle, r)
    ensures var g := AnsweredState(rt, f, now, oracle, r, value);
            && g.rounds.Keys == f.rounds.Keys && g.rounds[r].answeredInRound == Some(r)
            && forall p :: p in f.rounds && p != r ==> g.rounds[p] == f.rounds[p]
  {
    hide Sort, Median;
  }

  lemma AnswerKeepsCarry(rt: Runtime, f: FeedState, now: BlockNumber, oracle: AccountId, r: RoundId, value: Value)
    requires WindowOk(f) && CarryOk(f) && Accepting(f, oracle, r)
    ensures CarryOk(AnsweredState(rt, f, now, oracle, r, value))
  {
    hide AnsweredState, WindowOk;
    UpToReporting(f);
    AnsweredRounds(rt, f, now, oracle, r, value);
  }

  lemma AnswerKeepsOpenRound(
    rt: Runtime, f: FeedState, now: BlockNumber, oracle: AccountId, r: RoundId, value: Value, p: RoundId)
    requires OpenOk(rt, f) && Accepting(f, oracle, r) && 1 <= r
    requires forall q :: q in f.rounds ==> q <= f.config.reportingRound
    requires forall q :: q in f.details ==> 1 <= q
    requires |f.details[r].submissions| + 1 >= f.details[r].countBounds.min
    requires p in AnsweredState(rt, f, now, oracle, r, value).details
    ensures OpenRoundOk(rt, AnsweredState(rt, f, now, oracle, r, value), p)
  {
    hide Sort, Median, MiddleOf;
    var g := AnsweredState(rt, f, now, oracle, r, value);
    assert OpenRoundOk(rt, f, p);
    ValuesAppend(f.history.accepted, Submission(oracle, r, value, now), p);
    if p == r {
      assert g.details[r] == f.details[r].(submissions := Sort(f.details[r].submissions + [value]));
      assert multiset(g.details[r].submissions) == multiset(f.details[r].submissions) + multiset{value};
    } else {
      assert g.details[p] == f.details[p] && g.rounds[p] == f.rounds[p];
      assert p + 1 != r;
    }
  }

  lemma AnswerKeepsOpen(rt: Runtime, f: FeedState, now: BlockNumber, oracle: AccountId, r: RoundId, value: Value)
    requires CountersOk(f.config) && WindowOk(f) && OpenOk(rt, f) && Accepting(f, oracle, r)
    requires |f.details[r].submissions| + 1 >= f.details[r].countBounds.min
    ensures OpenOk(rt, AnsweredState(rt, f, now, oracle, r, value))
  {
    UpToReporting(f);
    hide WindowOk, OpenRoundOk, AnsweredState;
    forall p | p in AnsweredState(rt, f, now, oracle, r, value).details
      ensures OpenRoundOk(rt, AnsweredState(rt, f, now, oracle, r, value), p)
    {
      AnswerKeepsOpenRound(rt, f, now, oracle, r, value, p);
    }
  }

  lemma AnswerKeeps(rt: Runtime, f: FeedState, now: BlockNumber, oracle: AccountId, r: RoundId, value: Value)
    requires FeedInv(rt, f) && Accepting(f, oracle, r) && InBounds(f.config, value)
    requires |f.details[r].submissions| + 1 >= f.details[r].countBounds.min
    ensures FeedInv(rt, AnsweredState(rt, f, now, oracle, r, value))
  {
    var submissions := f.details[r].submissions + [value];
    var g := AnsweredState(rt, f, now, oracle, r, value);
    AnswerKeepsWindow(rt, f, now, oracle, r, value);
    AnswerIsSound(rt, f, now, oracle, r, value);
    AnswerKeepsCarry(rt, f, now, oracle, r, value);
    AnswerKeepsOpen(rt, f, now, oracle, r, value);
    RecordKeepsCounts(rt, f, now, oracle, r, value);
    RecordKeepsVoices(rt, f, now, oracle, r, value, Sort(submissions));
    OracleSideFrame(rt, Recorded(f, now, oracle, r, value, Sort(submissions)), g);
  }

  // --- pruning ---

  lemma PruneOldestIsPrunedTo(f: FeedState)
    ensures PruneOldest(f) == f
         || (f.config.nextRoundToPrune < f.config.latestRound && PruneOldest(f) == PrunedTo(f, f.config.nextRoundToPrune + 1))
  {
  }

  lemma PruneKeepsOpen(rt: Runtime, f: FeedState, target: RoundId)
    requires OpenOk(rt, f) && f.config.nextRoundToPrune <= target
    requires forall p :: p in f.details ==> f.config.nextRoundToPrune <= p
    ensures OpenOk(rt, PrunedTo(f, target))
  {
  }

  lemma PruneKeepsWindow(f: FeedState, target: RoundId)
    requires CountersOk(f.config) && WindowOk(f) && f.config.nextRoundToPrune <= target
    requires f.config.nextRoundToPrune == target || target <= f.config.latestRound
    ensures CountersOk(PrunedTo(f, target).config) && WindowOk(PrunedTo(f, target))
    ensures forall p :: p in f.details ==> f.config.nextRoundToPrune <= p
  {
  }

  lemma PruneKeeps(rt: Runtime, f: FeedState, target: RoundId)
    requires FeedInv(rt, f)
    requires f.config.nextRoundToPrune <= target
    requires f.config.nextRoundToPrune == target || target <= f.config.latestRound
    ensures FeedInv(rt, PrunedTo(f, target))
  {
    hide WindowOk, OpenOk, CountersOk, SubmissionsOk, CountsOk, OpeningsOk, StatusesOk, OracleCountOk;
    PruneKeepsWindow(f, target);
    PruneKeepsOpen(rt, f, target);
    OracleSideFrame(rt, f, PrunedTo(f, target));
  }
}
