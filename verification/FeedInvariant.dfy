/** What is true of a feed in every reachable state, piece by piece. */
module FeedInvariant {
  import opened Types
  import opened Medians
  import opened Feeds

  // --- reading the history ---

  /** The values accepted for round `r`, in order of acceptance. */
  function ValuesOf(accepted: seq<Submission>, r: RoundId): (values: seq<Value>) {
    if accepted == [] then []
    else
      var n := |accepted| - 1;
      var earlier := ValuesOf(accepted[..n], r);
      if accepted[n].round == r then earlier + [accepted[n].value] else earlier
  }

  lemma ValuesAppend(accepted: seq<Submission>, s: Submission, r: RoundId)
    ensures ValuesOf(accepted + [s], r)
         == if s.round == r then ValuesOf(accepted, r) + [s.value] else ValuesOf(accepted, r)
  {
  }

  lemma {:induction false} NoValues(accepted: seq<Submission>, r: RoundId)
    requires forall i :: 0 <= i < |accepted| ==> accepted[i].round != r
    ensures ValuesOf(accepted, r) == []
  {
    if accepted != [] {
      NoValues(accepted[..|accepted| - 1], r);
    }
  }

  // --- the pieces ---

  ghost predicate Answered(r: Round) {
    r.answer.Some? && r.updatedAt.Some? && r.answeredInRound.Some?
  }

  ghost predicate Pending(r: Round) {
    r.answer.None? && r.updatedAt.None? && r.answeredInRound.None?
  }

  ghost predicate BoundsOk(b: CountBounds) {
    1 <= b.min <= b.max
  }

  ghost predicate CountersOk(c: FeedConfig) {
    && BoundsOk(c.countBounds)
    && c.latestRound <= c.reportingRound
    && 1 <= c.nextRoundToPrune
    && (c.nextRoundToPrune == 1 || c.nextRoundToPrune <= c.latestRound)
    && (c.firstValidRound.None? <==> c.latestRound == 0)
    && (c.firstValidRound.Some? ==> c.nextRoundToPrune <= c.firstValidRound.value <= c.latestRound)
    && (c.nextRoundToPrune > 1 ==> c.firstValidRound == Some(c.nextRoundToPrune))
  }

  ghost predicate InWindow(c: FeedConfig, r: RoundId) {
    c.nextRoundToPrune <= r <= c.reportingRound
  }

  /** Stored rounds are round 0 and a contiguous window; only the reporting round may be unanswered. */
  ghost predicate WindowOk(f: FeedState) {
    && (forall r :: r in f.rounds <==> r == 0 || InWindow(f.config, r))
    && (forall r :: r in f.details ==> InWindow(f.config, r))
    && (forall r :: r in f.rounds ==> Answered(f.rounds[r]) || (Pending(f.rounds[r]) && r == f.config.reportingRound))
    && f.config.latestRound in f.rounds && Answered(f.rounds[f.config.latestRound])
  }

  /** Where the answer stored for round `r` comes from. */
  ghost predicate SoundAnswer(rt: Runtime, h: History, r: RoundId, round: Round)
    requires Answered(round)
  {
    var k := round.answeredInRound.value;
    && k <= r
    && (k == 0 ==> round.answer.value == 0)
    && (k > 0 ==>
          && k in h.openings
          && |ValuesOf(h.accepted, k)| >= h.openings[k].countBounds.min >= 1
          && round.answer.value == Median(ValuesOf(h.accepted, k), rt.valueMax))
  }

  ghost predicate ProvenanceOk(rt: Runtime, f: FeedState) {
    forall r :: r in f.rounds && Answered(f.rounds[r]) ==> SoundAnswer(rt, f.history, r, f.rounds[r])
  }

  ghost predicate CarriesOver(prev: Round, round: Round) {
    round.answer == prev.answer && round.answeredInRound == prev.answeredInRound
  }

  ghost predicate CarryOk(f: FeedState) {
    forall p, r :: p in f.rounds && r in f.rounds && r == p + 1 && Answered(f.rounds[r]) ==>
      f.rounds[r].answeredInRound == Some(r) || CarriesOver(f.rounds[p], f.rounds[r])
  }

  /** A round whose details are still stored. */
  ghost predicate OpenRoundOk(rt: Runtime, f: FeedState, r: RoundId)
    requires r in f.details
  {
    var d := f.details[r];
    && r in f.rounds && r in f.history.openings
    && d.countBounds == f.history.openings[r].countBounds
    && d.payment == f.history.openings[r].payment
    && d.timeout == f.history.openings[r].timeout
    && BoundsOk(d.countBounds)
    && |d.submissions| < d.countBounds.max
    && multiset(d.submissions) == multiset(ValuesOf(f.history.accepted, r))
    && (Answered(f.rounds[r]) <==> |d.submissions| >= d.countBounds.min)
    && (Answered(f.rounds[r]) ==> f.rounds[r].answeredInRound == Some(r))
    && !OutdoneBySuccessor(f, r)
  }

  /** The next round was answered by its own submissions. */
  ghost predicate OutdoneBySuccessor(f: FeedState, r: RoundId) {
    r + 1 in f.rounds && f.rounds[r + 1].answeredInRound == Some(r + 1)
  }

  ghost predicate OpenOk(rt: Runtime, f: FeedState) {
    forall r :: r in f.details ==> OpenRoundOk(rt, f, r)
  }

  ghost predicate ReportedAtLeast(statuses: map<AccountId, OracleStatus>, oracle: AccountId, r: RoundId) {
    oracle in statuses && statuses[oracle].lastReportedRound.Some? && statuses[oracle].lastReportedRound.value >= r
  }

  ghost predicate SubmissionOk(f: FeedState, s: Submission) {
    && s.round in f.history.openings
    && f.config.minValue <= s.value <= f.config.maxValue
    && ReportedAtLeast(f.statuses, s.oracle, s.round)
  }

  ghost predicate OneVoice(accepted: seq<Submission>) {
    forall i, j :: 0 <= i < j < |accepted| && accepted[i].oracle == accepted[j].oracle ==>
      accepted[i].round < accepted[j].round
  }

  ghost predicate SubmissionsOk(f: FeedState) {
    && (forall i :: 0 <= i < |f.history.accepted| ==> SubmissionOk(f, f.history.accepted[i]))
    && OneVoice(f.history.accepted)
  }

  ghost predicate CountsOk(h: History) {
    forall r :: r in h.openings ==> |ValuesOf(h.accepted, r)| <= h.openings[r].countBounds.max
  }

  ghost predicate StartedAtLeast(statuses: map<AccountId, OracleStatus>, oracle: AccountId, r: RoundId) {
    oracle in statuses && statuses[oracle].lastStartedRound.Some? && statuses[oracle].lastStartedRound.value >= r
  }

  ghost predicate SameOracle(a: Opening, b: Opening) {
    a.starter.ByOracle? && a.starter == b.starter
  }

  /** Any two rounds started by one oracle are further apart than the delay in force at the later start. */
  ghost predicate FairStarts(openings: map<RoundId, Opening>) {
    forall p, r :: p in openings && r in openings && p < r && SameOracle(openings[p], openings[r]) ==>
      p + openings[r].restartDelay + 1 <= r
  }

  ghost predicate OpeningsOk(f: FeedState) {
    && (forall r :: r in f.history.openings <==> 1 <= r <= f.config.reportingRound)
    && (forall r :: r in f.history.openings && f.history.openings[r].starter.ByOracle? ==>
          StartedAtLeast(f.statuses, f.history.openings[r].starter.oracle, r))
    && FairStarts(f.history.openings)
  }

  ghost predicate Reported(accepted: seq<Submission>, oracle: AccountId, r: RoundId, value: Value) {
    exists i :: 0 <= i < |accepted| && accepted[i].oracle == oracle && accepted[i].round == r && accepted[i].value == value
  }

  lemma ReportedExtends(accepted: seq<Submission>, s: Submission, oracle: AccountId, r: RoundId, value: Value)
    requires Reported(accepted, oracle, r, value) || (s.oracle == oracle && s.round == r && s.value == value)
    ensures Reported(accepted + [s], oracle, r, value)
  {
    var later := accepted + [s];
    if Reported(accepted, oracle, r, value) {
      var i :| 0 <= i < |accepted| && accepted[i].oracle == oracle && accepted[i].round == r && accepted[i].value == value;
      assert later[i] == accepted[i];
    } else {
      assert later[|accepted|] == s;
    }
  }

  /** The oracle was added, and perhaps disabled since, no later than now. */
  ghost predicate TermOk(s: OracleStatus, reporting: RoundId) {
    && s.startingRound <= reporting
    && (s.endingRound.Some? ==> s.startingRound <= s.endingRound.value <= reporting)
  }

  ghost predicate StatusOk(f: FeedState, oracle: AccountId, s: OracleStatus) {
    && TermOk(s, f.config.reportingRound)
    && (s.lastReportedRound.Some? <==> s.latestSubmission.Some?)
    && (s.lastReportedRound.Some? ==>
          && s.lastReportedRound.value <= f.config.reportingRound
          && Reported(f.history.accepted, oracle, s.lastReportedRound.value, s.latestSubmission.value))
    && (s.lastStartedRound.Some? ==>
          && s.lastStartedRound.value in f.history.openings
          && f.history.openings[s.lastStartedRound.value].starter == ByOracle(oracle))
  }

  ghost predicate StatusesOk(f: FeedState) {
    forall o :: o in f.statuses ==> StatusOk(f, o, f.statuses[o])
  }

  function EnabledOracles(statuses: map<AccountId, OracleStatus>): set<AccountId> {
    set o | o in statuses && Enabled(statuses[o])
  }

  ghost predicate OracleCountOk(rt: Runtime, f: FeedState) {
    f.config.oracleCount == |EnabledOracles(f.statuses)| <= rt.oracleCountLimit
  }

  /** What the invariant says about oracles, starts and submissions. */
  ghost predicate OracleSide(rt: Runtime, f: FeedState) {
    SubmissionsOk(f) && CountsOk(f.history) && OpeningsOk(f) && StatusesOk(f) && OracleCountOk(rt, f)
  }

  /** What the invariant says about stored rounds and details. */
  ghost predicate RoundSide(rt: Runtime, f: FeedState) {
    CountersOk(f.config) && WindowOk(f) && ProvenanceOk(rt, f) && CarryOk(f) && OpenOk(rt, f)
  }

  ghost predicate FeedInv(rt: Runtime, f: FeedState) {
    RoundSide(rt, f) && OracleSide(rt, f)
  }

  /** The parts that are needed where the invariant is hidden. */
  lemma PartsOf(rt: Runtime, f: FeedState)
    requires FeedInv(rt, f)
    ensures CountersOk(f.config) && WindowOk(f) && OpenOk(rt, f)
  {
  }
}
