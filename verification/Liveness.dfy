/** An open round can be answered: exactly who can report to it, and that enough reports get it an answer. */
module Liveness {
  import opened Types
  import opened Medians
  import opened Feeds
  import opened FeedInvariant
  import opened RoundSteps
  import opened FeedSteps
  import opened Origins
  import opened Pallets
  import opened Runs
  import opened Consumers
  import opened Oracles
  import opened Money
  import opened Stalls

  // --- who can report to the reporting round ---

  /** The oracle's status lets it submit to round `r`, which is already open. */
  ghost predicate CanReport(f: FeedState, oracle: AccountId, r: RoundId) {
    && oracle in f.statuses
    && var o := f.statuses[oracle];
       && (o.endingRound.Some? ==> r <= o.endingRound.value)
       && (o.lastReportedRound.Some? ==> o.lastReportedRound.value < r)
       && o.lastStartedRound.GetOr(0) + f.config.restartDelay < U32_MAX
  }

  /** The reporting round can take one more submission. */
  ghost predicate HasRoom(f: FeedState) {
    var r := f.config.reportingRound;
    && 1 <= r && (r == 1 || r - 1 in f.rounds)
    && r in f.history.openings && |ValuesOf(f.history.accepted, r)| < f.history.openings[r].countBounds.max
  }

  lemma ReportingValidIff(rt: Runtime, f: FeedState, now: BlockNumber, oracle: AccountId)
    requires FeedInv(rt, f) && 1 <= f.config.reportingRound
    ensures var r := f.config.reportingRound;
            EnsureValidRound(rt, f, now, oracle, r).Ok?
            <==> && oracle in f.statuses
                 && var o := f.statuses[oracle];
                    && (o.endingRound.Some? ==> r <= o.endingRound.value)
                    && (o.lastReportedRound.Some? ==> o.lastReportedRound.value < r)
                    && (r == 1 || r - 1 in f.rounds)
  {
    hide ProvenanceOk, CarryOk, OpenOk, SubmissionsOk, CountsOk, OpeningsOk, OracleCountOk;
    var p: RoundId := f.config.reportingRound - 1;
    assert p in f.rounds ==> Answered(f.rounds[p]);
    if oracle in f.statuses {
      assert StatusOk(f, oracle, f.statuses[oracle]);
    }
  }

  /** Submitting to the reporting round opens nothing. */
  lemma ReportOpensNothing(rt: Runtime, f: FeedState, now: BlockNumber, oracle: AccountId)
    requires oracle in f.statuses && f.config.reportingRound < U32_MAX
    ensures var begun := OpenIfEligible(rt, f, now, oracle, f.config.reportingRound);
            && (begun.Ok? <==> f.statuses[oracle].lastStartedRound.GetOr(0) + f.config.restartDelay < U32_MAX)
            && (begun.Ok? ==> begun.value == f)
            && !Reopens(f, oracle, f.config.reportingRound)
  {
  }

  lemma AcceptIff(rt: Runtime, f: FeedState, now: BlockNumber, oracle: AccountId, value: Value)
    requires Extent(f) && OpenOk(rt, f) && ReportingOpen(f) && oracle in f.statuses && 1 <= f.config.reportingRound
    ensures var r := f.config.reportingRound;
            && r in f.history.openings
            && (Accept(rt, f, now, oracle, r, value).Ok? <==>
                  |ValuesOf(f.history.accepted, r)| < f.history.openings[r].countBounds.max)
            && (r in f.details ==> f.details[r].payment == f.history.openings[r].payment)
  {
    hide Recorded, Answer, PruneOldest, Sort, Median, ValuesOf;
    if f.config.reportingRound in f.details {
      assert OpenRoundOk(rt, f, f.config.reportingRound);
    }
  }

  /** A submission to the reporting round is taken by the feed exactly under these conditions. */
  lemma ReportIff(rt: Runtime, s: State, id: FeedId, oracle: AccountId, value: Value)
    requires RuntimeOk(rt) && Reachable(rt, s) && id in s.feeds && 1 <= s.feeds[id].config.reportingRound < U32_MAX
    ensures var f := s.feeds[id]; var r := f.config.reportingRound; var spec := SubmitToFeed(rt, f, s.now, oracle, r, value);
            && (spec.Ok? <==> CanReport(f, oracle, r) && InBounds(f.config, value) && HasRoom(f))
            && (spec.Ok? ==> && Accept(rt, f, s.now, oracle, r, value) == Ok(spec.value.0)
                             && r in f.history.openings && spec.value.1 == f.history.openings[r].payment)
  {
    hide Reachable, FeedInv, CountersOk, WindowOk, OpenOk, AnswersFollow, LateOpen, Succeeded, EnsureValidRound,
      OpenIfEligible, Accept, ValuesOf;
    ReachableOrigins(rt, s, id);
    var f := s.feeds[id];
    ExtentOf(rt, f);
    ReportingValidIff(rt, f, s.now, oracle);
    if oracle in f.statuses {
      ReportOpensNothing(rt, f, s.now, oracle);
      AcceptIff(rt, f, s.now, oracle, value);
    }
  }

  /** The whole `submit` to the reporting round succeeds exactly if the payment can be funded and credited, too. */
  lemma ReportExtrinsicIff(rt: Runtime, s: State, id: FeedId, oracle: AccountId, value: Value, refused: bool)
    requires RuntimeOk(rt) && Reachable(rt, s) && id in s.feeds && 1 <= s.feeds[id].config.reportingRound < U32_MAX
    ensures var f := s.feeds[id]; var r := f.config.reportingRound;
            Step(rt, s, Submit(oracle, id, r, value, refused)).result.Ok?
            <==> && CanReport(f, oracle, r) && InBounds(f.config, value) && HasRoom(f)
                 && Payable(rt, s.fund, f.config, f.history.openings[r].payment, refused)
                 && oracle in s.oracles && s.oracles[oracle].withdrawable + f.history.openings[r].payment <= rt.balanceMax
  {
    hide Reachable, SubmitToFeed, CanReport, InBounds, Accept, Step, FundPayment, Payable, ValuesOf;
    var f := s.feeds[id];
    var r := f.config.reportingRound;
    StepOf(rt, s, Submit(oracle, id, r, value, refused));
    ReportIff(rt, s, id, oracle, value);
    if SubmitToFeed(rt, f, s.now, oracle, r, value).Ok? {
      var (g, payment) := SubmitToFeed(rt, f, s.now, oracle, r, value).value;
      SubmitKeepsLimits(rt, f, s.now, oracle, r, value);
      FundingIff(rt, s.fund, g.config, payment, refused);
      SameLimitsPayable(rt, s.fund, f.config, g.config, payment, refused);
    }
  }

  lemma SameLimitsPayable(rt: Runtime, fund: Fund, c: FeedConfig, d: FeedConfig, payment: Balance, refused: bool)
    requires SameLimits(c, d)
    ensures Payable(rt, fund, c, payment, refused) <==> Payable(rt, fund, d, payment, refused)
  {
  }

  // --- late reports, starts, and everything else ---

  lemma LateReportValidIff(rt: Runtime, f: FeedState, now: BlockNumber, oracle: AccountId)
    requires FeedInv(rt, f) && 2 <= f.config.reportingRound < U32_MAX
    ensures var r: RoundId := f.config.reportingRound - 1;
            EnsureValidRound(rt, f, now, oracle, r).Ok?
            <==> && oracle in f.statuses
                 && var o := f.statuses[oracle];
                    && o.startingRound <= r && (o.endingRound.Some? ==> r <= o.endingRound.value)
                    && (o.lastReportedRound.Some? ==> o.lastReportedRound.value < r)
                    && DataAt(f, f.config.reportingRound).None?
                    && (r == 1 || r - 1 in f.rounds)
  {
    hide ProvenanceOk, CarryOk, OpenOk, OracleSide;
    var p: RoundId := f.config.reportingRound - 2;
    assert p in f.rounds ==> Answered(f.rounds[p]);
    assert InWindow(f.config, f.config.reportingRound);
  }

  /** Accepting depends on the details alone, as stored rounds include every round with details. */
  lemma AcceptsWithDetails(rt: Runtime, f: FeedState, now: BlockNumber, oracle: AccountId, r: RoundId, value: Value)
    requires OpenOk(rt, f) && oracle in f.statuses
    ensures Accept(rt, f, now, oracle, r, value).Ok? <==> r in f.details
    ensures r in f.details ==> r in f.history.openings && f.details[r].payment == f.history.openings[r].payment
  {
    hide Recorded, Answer, PruneOldest, Sort, Median, ValuesOf;
    if r in f.details {
      assert OpenRoundOk(rt, f, r);
    }
  }

  lemma LateReportOpensNothing(rt: Runtime, f: FeedState, now: BlockNumber, oracle: AccountId, r: RoundId)
    requires oracle in f.statuses && r < f.config.reportingRound
    ensures var begun := OpenIfEligible(rt, f, now, oracle, r);
            && (begun.Ok? <==> f.statuses[oracle].lastStartedRound.GetOr(0) + f.config.restartDelay < U32_MAX)
            && (begun.Ok? ==> begun.value == f)
  {
  }

  /**
   A feed takes a late submission to the round before the reporting one exactly as long as the reporting round has no
   data and the late one still has details.
   */
  lemma LateReportIff(rt: Runtime, s: State, id: FeedId, oracle: AccountId, value: Value)
    requires RuntimeOk(rt) && Reachable(rt, s) && id in s.feeds && 2 <= s.feeds[id].config.reportingRound < U32_MAX
    ensures var f := s.feeds[id]; var r: RoundId := f.config.reportingRound - 1;
            var spec := SubmitToFeed(rt, f, s.now, oracle, r, value);
            && (spec.Ok? <==> && CanReport(f, oracle, r) && f.statuses[oracle].startingRound <= r && InBounds(f.config, value)
                              && DataAt(f, r + 1).None? && (r == 1 || r - 1 in f.rounds) && r in f.details)
            && (spec.Ok? ==> && Accept(rt, f, s.now, oracle, r, value) == Ok(spec.value.0)
                             && r in f.history.openings && spec.value.1 == f.history.openings[r].payment)
  {
    hide Reachable, FeedInv, WindowOk, OpenOk, EnsureValidRound, OpenIfEligible, Accept, DataAt;
    ReachableFeed(rt, s, id);
    var f := s.feeds[id];
    var r: RoundId := f.config.reportingRound - 1;
    PartsOf(rt, f);
    LateReportValidIff(rt, f, s.now, oracle);
    if oracle in f.statuses {
      LateReportOpensNothing(rt, f, s.now, oracle, r);
      AcceptsWithDetails(rt, f, s.now, oracle, r, value);
    }
  }

  lemma StartNeedsRoom(rt: Runtime, f: FeedState, now: BlockNumber, oracle: AccountId)
    requires WindowOk(f) && f.config.reportingRound < U32_MAX && oracle in f.statuses
    ensures var r: RoundId := f.config.reportingRound + 1; var begun := OpenIfEligible(rt, f, now, oracle, r);
            && (begun.Ok? && r in begun.value.details ==> MayStart(f, oracle, r) && !Stalled(rt, f, now))
  {
    var r: RoundId := f.config.reportingRound + 1;
    assert r !in f.details by { assert !InWindow(f.config, r); }
  }

  /** A feed takes a submission to the next round exactly from an oracle that can start it, unless it is stalled. */
  lemma StartIff(rt: Runtime, s: State, id: FeedId, oracle: AccountId, value: Value)
    requires RuntimeOk(rt) && Reachable(rt, s) && id in s.feeds && s.feeds[id].config.reportingRound < U32_MAX
    ensures var f := s.feeds[id];
            SubmitToFeed(rt, f, s.now, oracle, f.config.reportingRound + 1, value).Ok?
            <==> CanStartNext(rt, f, s.now, oracle) && InBounds(f.config, value) && !Stalled(rt, f, s.now)
  {
    hide Reachable, FeedInv, CountersOk, WindowOk, OpenOk, EnsureValidRound, OpenIfEligible, Accept, MayStart, Stalled;
    ReachableFeed(rt, s, id);
    var f := s.feeds[id];
    var r: RoundId := f.config.reportingRound + 1;
    PartsOf(rt, f);
    if CanStartNext(rt, f, s.now, oracle) && InBounds(f.config, value) && !Stalled(rt, f, s.now) {
      StartingSubmissionSucceeds(rt, f, s.now, oracle, value);
    }
    if SubmitToFeed(rt, f, s.now, oracle, r, value).Ok? {
      StartNeedsRoom(rt, f, s.now, oracle);
      OpenKeepsTerms(rt, f, s.now, oracle, r);
      AcceptNeedsDetails(rt, OpenIfEligible(rt, f, s.now, oracle, r).value, s.now, oracle, r, value);
    }
  }

  lemma AcceptNeedsDetails(rt: Runtime, f: FeedState, now: BlockNumber, oracle: AccountId, r: RoundId, value: Value)
    requires oracle in f.statuses && Accept(rt, f, now, oracle, r, value).Ok?
    ensures r in f.details
  {
  }

  /** Only the reporting round, the one before and the one after it can be submitted to. */
  lemma OtherRoundsAreRefused(rt: Runtime, f: FeedState, now: BlockNumber, oracle: AccountId, r: RoundId, value: Value)
    requires r + 1 < f.config.reportingRound || f.config.reportingRound + 1 < r
    ensures SubmitToFeed(rt, f, now, oracle, r, value).Err?
  {
    hide OpenIfEligible, Accept;
  }

  // --- paying for several submissions ---

  /** The fund has `k` payments free, or the feed can owe them. */
  ghost predicate Affordable(rt: Runtime, free: Balance, c: FeedConfig, k: nat, payment: Balance) {
    || k * payment <= free
    || (c.debt + k * payment <= rt.balanceMax && (c.maxDebt.Some? ==> c.debt + k * payment <= c.maxDebt.value))
  }

  lemma OneAffordable(rt: Runtime, fund: Fund, c: FeedConfig, k: nat, payment: Balance)
    requires k > 0 && Affordable(rt, fund.free, c, k, payment)
    ensures Payable(rt, fund, c, payment, false)
    ensures var (fund', c') := FundPayment(rt, fund, c, payment, false).value; Affordable(rt, fund'.free, c', k - 1, payment)
  {
    assert k * payment == payment + (k - 1) * payment;
    assert 0 <= (k - 1) * payment;
  }

  ghost predicate Creditable(rt: Runtime, oracles: map<AccountId, OracleMeta>, o: AccountId, payment: Balance) {
    o in oracles && oracles[o].withdrawable + payment <= rt.balanceMax
  }

  /** What a submission does to the state, once the feed takes it and the payment can be made. */
  lemma PaidStep(rt: Runtime, s: State, id: FeedId, o: AccountId, r: RoundId, value: Value, k: nat)
    requires RuntimeOk(rt) && Reachable(rt, s) && id in s.feeds && s.feeds[id].config.reportingRound < U32_MAX
    requires SubmitToFeed(rt, s.feeds[id], s.now, o, r, value).Ok?
    requires var payment := SubmitToFeed(rt, s.feeds[id], s.now, o, r, value).value.1;
             k > 0 && Affordable(rt, s.fund.free, s.feeds[id].config, k, payment) && Creditable(rt, s.oracles, o, payment)
    ensures var c := Submit(o, id, r, value, false); var s' := Step(rt, s, c).state;
            var (g, payment) := SubmitToFeed(rt, s.feeds[id], s.now, o, r, value).value;
            && InRange(s, c) && Step(rt, s, c).result.Ok? && Reachable(rt, s')
            && id in s'.feeds && s'.feeds[id] == g.(config := s'.feeds[id].config)
            && s'.feeds[id].config == g.config.(debt := s'.feeds[id].config.debt)
            && Affordable(rt, s'.fund.free, s'.feeds[id].config, k - 1, payment)
            && (forall p :: p != o && p in s.oracles ==> p in s'.oracles && s'.oracles[p] == s.oracles[p])
  {
    hide Reachable, SubmitToFeed, Step, FundPayment, Affordable, Payable;
    var f := s.feeds[id];
    var (g, payment) := SubmitToFeed(rt, f, s.now, o, r, value).value;
    var c := Submit(o, id, r, value, false);
    StepOf(rt, s, c);
    SubmitKeepsLimits(rt, f, s.now, o, r, value);
    SameLimitsAffordable(rt, s.fund.free, f.config, g.config, k, payment);
    OneAffordable(rt, s.fund, g.config, k, payment);
    FundingIff(rt, s.fund, g.config, payment, false);
    FundingTouchesDebt(rt, s.fund, g.config, payment);
    ReachableThen(rt, s, c);
  }

  lemma SameLimitsAffordable(rt: Runtime, free: Balance, c: FeedConfig, d: FeedConfig, k: nat, payment: Balance)
    requires SameLimits(c, d) && Affordable(rt, free, c, k, payment)
    ensures Affordable(rt, free, d, k, payment)
  {
  }

  lemma FundingTouchesDebt(rt: Runtime, fund: Fund, c: FeedConfig, payment: Balance)
    requires FundPayment(rt, fund, c, payment, false).Ok?
    ensures var d := FundPayment(rt, fund, c, payment, false).value.1; d == c.(debt := d.debt)
  {
  }

  // --- an open round can be answered ---

  /** Each oracle's vote in round `r` of feed `id`. */
  ghost predicate Votes(calls: seq<Call>, voters: set<AccountId>, id: FeedId, r: RoundId, votes: AccountId -> Value) {
    forall i :: 0 <= i < |calls| ==>
      exists o :: o in voters && calls[i] == Submit(o, id, r, votes(o), false)
  }

  /** The oracle can submit its vote to the reporting round and be paid for it. */
  ghost predicate CanVote(rt: Runtime, s: State, id: FeedId, o: AccountId, votes: AccountId -> Value)
    requires id in s.feeds && s.feeds[id].config.reportingRound in s.feeds[id].history.openings
  {
    var f := s.feeds[id];
    var r := f.config.reportingRound;
    CanReport(f, o, r) && InBounds(f.config, votes(o)) && Creditable(rt, s.oracles, o, f.history.openings[r].payment)
  }

  /** The reporting round is `k` submissions short of its minimum, and there are voters and money for them. */
  ghost predicate Short(rt: Runtime, s: State, id: FeedId, k: nat, voters: set<AccountId>, votes: AccountId -> Value) {
    && id in s.feeds
    && var f := s.feeds[id]; var r := f.config.reportingRound;
       && 1 <= r < U32_MAX && r in f.history.openings
       && |ValuesOf(f.history.accepted, r)| + k == f.history.openings[r].countBounds.min
       && (k > 0 ==>
             && (r == 1 || r - 1 in f.rounds)
             && k <= |voters| && (forall o :: o in voters ==> CanVote(rt, s, id, o, votes))
             && Affordable(rt, s.fund.free, f.config, k, f.history.openings[r].payment))
  }

  ghost predicate AnsweredIn(s: State, id: FeedId, r: RoundId) {
    && id in s.feeds && s.feeds[id].config.reportingRound == r
    && DataAt(s.feeds[id], r).Some? && DataAt(s.feeds[id], r).value.answeredInRound == r
  }

  lemma EnoughIsAnswered(rt: Runtime, s: State, id: FeedId)
    requires RuntimeOk(rt) && Reachable(rt, s) && id in s.feeds && 1 <= s.feeds[id].config.reportingRound
    requires var f := s.feeds[id]; var r := f.config.reportingRound;
             r in f.history.openings && f.history.openings[r].countBounds.min <= |ValuesOf(f.history.accepted, r)|
    ensures AnsweredIn(s, id, s.feeds[id].config.reportingRound)
  {
    hide Reachable, FeedInv, OriginOk, CountersOk, WindowOk, OpenOk, ValuesOf;
    ReachableOrigins(rt, s, id);
    var r := s.feeds[id].config.reportingRound;
    ExtentOf(rt, s.feeds[id]);
    HasDataIff(rt, s, id, r);
    CarriedOverIff(rt, s, id, r);
    AnswerProvenance(rt, s, id, r);
  }

  /** What one more submission to the reporting round changes. */
  lemma ReportEffect(rt: Runtime, f: FeedState, now: BlockNumber, o: AccountId, value: Value)
    requires o in f.statuses && Accept(rt, f, now, o, f.config.reportingRound, value).Ok?
    ensures var r := f.config.reportingRound; var g := Accept(rt, f, now, o, r, value).value;
            && g.history == WithSubmission(f.history, Submission(o, r, value, now))
            && g.config.reportingRound == r && SameLimits(f.config, g.config)
            && g.config.minValue == f.config.minValue && g.config.maxValue == f.config.maxValue
            && g.statuses - {o} == f.statuses - {o}
            && r in f.details
            && (|f.details[r].submissions| + 1 < f.details[r].countBounds.min ==> g.rounds == f.rounds)
  {
    hide Sort, Median;
  }

  /** The feed after one more submission below the minimum, or at it. */
  ghost predicate TookVote(f: FeedState, g: FeedState, o: AccountId, value: Value, now: BlockNumber) {
    var r := f.config.reportingRound;
    && g.history == WithSubmission(f.history, Submission(o, r, value, now))
    && g.config.reportingRound == r && g.config.restartDelay == f.config.restartDelay
    && g.config.minValue == f.config.minValue && g.config.maxValue == f.config.maxValue
    && g.statuses - {o} == f.statuses - {o}
    && (r in f.history.openings && |ValuesOf(f.history.accepted, r)| + 1 < f.history.openings[r].countBounds.min ==>
          g.rounds == f.rounds)
  }

  lemma VoteIsTaken(rt: Runtime, s: State, id: FeedId, o: AccountId, k: nat, voters: set<AccountId>, votes: AccountId -> Value)
    requires RuntimeOk(rt) && Reachable(rt, s) && Short(rt, s, id, k, voters, votes) && k > 0 && o in voters
    ensures var f := s.feeds[id]; var r := f.config.reportingRound;
            var spec := SubmitToFeed(rt, f, s.now, o, r, votes(o));
            && spec.Ok? && spec.value.1 == f.history.openings[r].payment
            && TookVote(f, spec.value.0, o, votes(o), s.now)
  {
    hide Reachable, FeedInv, CountersOk, WindowOk, OpenOk, SubmitToFeed, Accept, ValuesOf, OriginOk;
    var f := s.feeds[id];
    var r := f.config.reportingRound;
    assert CanVote(rt, s, id, o, votes);
    ReachableOrigins(rt, s, id);
    ExtentOf(rt, f);
    BoundsOfOpening(rt, f, r);
    ReportIff(rt, s, id, o, votes(o));
    ReportEffect(rt, f, s.now, o, votes(o));
    SubmissionCount(rt, f, r);
  }

  lemma OthersCanStillVote(
    rt: Runtime, s: State, s': State, id: FeedId, o: AccountId, p: AccountId, votes: AccountId -> Value)
    requires id in s.feeds && s.feeds[id].config.reportingRound in s.feeds[id].history.openings
    requires id in s'.feeds && TookVote(s.feeds[id], s'.feeds[id], o, votes(o), s.now)
    requires p != o && CanVote(rt, s, id, p, votes) && p in s'.oracles && s'.oracles[p] == s.oracles[p]
    ensures CanVote(rt, s', id, p, votes)
  {
    var f, g := s.feeds[id], s'.feeds[id];
    assert p in f.statuses - {o} && p in g.statuses - {o};
    assert g.statuses[p] == (g.statuses - {o})[p] == f.statuses[p];
  }

  lemma DebtKeepsVote(f: FeedState, g: FeedState, h: FeedState, o: AccountId, value: Value, now: BlockNumber)
    requires TookVote(f, g, o, value, now) && h == g.(config := h.config) && h.config == g.config.(debt := h.config.debt)
    ensures TookVote(f, h, o, value, now)
  {
  }

  /** One voter fewer and one vote fewer to go. */
  lemma OneVote(rt: Runtime, s: State, id: FeedId, o: AccountId, k: nat, voters: set<AccountId>, votes: AccountId -> Value)
    requires RuntimeOk(rt) && Reachable(rt, s) && Short(rt, s, id, k, voters, votes) && k > 0 && o in voters
    ensures var r := s.feeds[id].config.reportingRound;
            var c := Submit(o, id, r, votes(o), false); var s' := Step(rt, s, c).state;
            && InRange(s, c) && Reachable(rt, s') && Short(rt, s', id, k - 1, voters - {o}, votes)
            && s'.feeds[id].config.reportingRound == r
  {
    hide Reachable, SubmitToFeed, Step, Affordable, InRange, ValuesOf, TookVote, CanVote;
    var f := s.feeds[id];
    var r := f.config.reportingRound;
    VoteIsTaken(rt, s, id, o, k, voters, votes);
    VoterIsCreditable(rt, s, id, o, votes);
    PaidStep(rt, s, id, o, r, votes(o), k);
    var s' := Step(rt, s, Submit(o, id, r, votes(o), false)).state;
    DebtKeepsVote(f, SubmitToFeed(rt, f, s.now, o, r, votes(o)).value.0, s'.feeds[id], o, votes(o), s.now);
    VoteCounts(f, s'.feeds[id], o, votes(o), s.now);
    forall p | p in voters - {o} ensures CanVote(rt, s', id, p, votes) {
      VoterIsCreditable(rt, s, id, p, votes);
      OthersCanStillVote(rt, s, s', id, o, p, votes);
    }
  }

  lemma VoterIsCreditable(rt: Runtime, s: State, id: FeedId, o: AccountId, votes: AccountId -> Value)
    requires id in s.feeds && s.feeds[id].config.reportingRound in s.feeds[id].history.openings && CanVote(rt, s, id, o, votes)
    ensures Creditable(rt, s.oracles, o, s.feeds[id].history.openings[s.feeds[id].config.reportingRound].payment)
  {
  }

  lemma VoteCounts(f: FeedState, g: FeedState, o: AccountId, value: Value, now: BlockNumber)
    requires TookVote(f, g, o, value, now)
    ensures var r := f.config.reportingRound;
            && g.config.reportingRound == r && g.history.openings == f.history.openings
            && |ValuesOf(g.history.accepted, r)| == |ValuesOf(f.history.accepted, r)| + 1
            && (r in f.history.openings && |ValuesOf(g.history.accepted, r)| < f.history.openings[r].countBounds.min ==>
                  g.rounds == f.rounds)
  {
    ValuesAppend(f.history.accepted, Submission(o, f.config.reportingRound, value, now), f.config.reportingRound);
  }

  /** A run of votes by `k` of the voters that gets round `r` its own answer. */
  ghost predicate AnsweringRun(
    rt: Runtime, s: State, calls: seq<Call>, id: FeedId, r: RoundId, k: nat, voters: set<AccountId>, votes: AccountId -> Value)
  {
    && RunInRange(rt, s, calls) && |calls| == k && Votes(calls, voters, id, r, votes)
    && AnsweredIn(Execute(rt, s, calls), id, r)
  }

  lemma VoteFirst(
    rt: Runtime, s: State, o: AccountId, rest: seq<Call>, id: FeedId, r: RoundId, k: nat, voters: set<AccountId>,
    votes: AccountId -> Value)
    requires k > 0 && o in voters && InRange(s, Submit(o, id, r, votes(o), false))
    requires AnsweringRun(rt, Step(rt, s, Submit(o, id, r, votes(o), false)).state, rest, id, r, k - 1, voters - {o}, votes)
    ensures AnsweringRun(rt, s, [Submit(o, id, r, votes(o), false)] + rest, id, r, k, voters, votes)
  {
    hide Step, AnsweredIn, InRange;
    var calls := [Submit(o, id, r, votes(o), false)] + rest;
    assert calls[1..] == rest;
    forall i | 0 <= i < |calls| ensures exists p :: p in voters && calls[i] == Submit(p, id, r, votes(p), false) {
      if i > 0 {
        assert calls[i] == rest[i - 1];
      }
    }
  }

  /**
   An unanswered reporting round can be answered: if as many oracles as it still needs can report, with whatever
   admissible values, and their payments can be funded, their submissions give it an answer of its own.
   */
  lemma {:induction false} OpenRoundCanBeAnswered(
    rt: Runtime, s: State, id: FeedId, k: nat, voters: set<AccountId>, votes: AccountId -> Value)
    requires RuntimeOk(rt) && Reachable(rt, s) && Short(rt, s, id, k, voters, votes)
    ensures exists calls :: AnsweringRun(rt, s, calls, id, s.feeds[id].config.reportingRound, k, voters, votes)
    decreases k
  {
    hide Reachable, Step, ValuesOf, CanVote, Affordable, InRange, AnsweredIn;
    var r := s.feeds[id].config.reportingRound;
    if k == 0 {
      EnoughIsAnswered(rt, s, id);
      assert AnsweringRun(rt, s, [], id, r, 0, voters, votes);
    } else {
      var o :| o in voters;
      OneVote(rt, s, id, o, k, voters, votes);
      var s' := Step(rt, s, Submit(o, id, r, votes(o), false)).state;
      OpenRoundCanBeAnswered(rt, s', id, k - 1, voters - {o}, votes);
      var rest :| AnsweringRun(rt, s', rest, id, r, k - 1, voters - {o}, votes);
      VoteFirst(rt, s, o, rest, id, r, k, voters, votes);
    }
  }

  // --- the next round can be opened and answered ---

  lemma OpeningEffect(rt: Runtime, f: FeedState, now: BlockNumber, o: AccountId)
    requires f.config.reportingRound < U32_MAX && f.config.reportingRound in f.rounds && o in f.statuses
    requires MayStart(f, o, f.config.reportingRound + 1) && OpenIfEligible(rt, f, now, o, f.config.reportingRound + 1).Ok?
    ensures var r: RoundId := f.config.reportingRound + 1; var g := OpenIfEligible(rt, f, now, o, r).value;
            && g.config == f.config.(reportingRound := r) && r - 1 in g.rounds
            && g.history == f.history.(openings := f.history.openings[r := OpeningTerms(f.config, ByOracle(o), now)])
            && g.statuses - {o} == f.statuses - {o} && o in g.statuses
            && r in g.details && g.details[r].submissions == [] && g.details[r].countBounds == f.config.countBounds
  {
  }

  /** The feed after oracle `o` started the next round with its vote. */
  ghost predicate Started(f: FeedState, g: FeedState, o: AccountId, value: Value, now: BlockNumber)
    requires f.config.reportingRound < U32_MAX
  {
    var r: RoundId := f.config.reportingRound + 1;
    && g.config.reportingRound == r && g.config.restartDelay == f.config.restartDelay
    && g.config.minValue == f.config.minValue && g.config.maxValue == f.config.maxValue
    && g.history.openings == f.history.openings[r := OpeningTerms(f.config, ByOracle(o), now)]
    && g.history.accepted == f.history.accepted + [Submission(o, r, value, now)]
    && g.statuses - {o} == f.statuses - {o}
    && (f.config.countBounds.min > 1 ==> r - 1 in g.rounds)
  }

  lemma StartIsTaken(rt: Runtime, f: FeedState, now: BlockNumber, o: AccountId, value: Value)
    requires FeedInv(rt, f) && f.config.reportingRound < U32_MAX
    requires CanStartNext(rt, f, now, o) && !Stalled(rt, f, now) && InBounds(f.config, value)
    ensures var spec := SubmitToFeed(rt, f, now, o, f.config.reportingRound + 1, value);
            && spec.Ok? && spec.value.1 == f.config.payment && Started(f, spec.value.0, o, value, now)
  {
    hide FeedInv, CountersOk, WindowOk, OpenOk, EnsureValidRound, Stalled, OpenIfEligible, Accept, MayStart;
    var r: RoundId := f.config.reportingRound + 1;
    CanStartIsOracle(rt, f, now, o);
    ExtentOf(rt, f);
    StartingSubmissionSucceeds(rt, f, now, o, value);
    OpeningEffect(rt, f, now, o);
    ReportEffect(rt, OpenIfEligible(rt, f, now, o, r).value, now, o, value);
  }

  lemma StarterVoted(f: FeedState, g: FeedState, o: AccountId, value: Value, now: BlockNumber)
    requires f.config.reportingRound < U32_MAX && Started(f, g, o, value, now)
    requires ValuesOf(f.history.accepted, f.config.reportingRound + 1) == []
    ensures ValuesOf(g.history.accepted, f.config.reportingRound + 1) == [value]
  {
    ValuesAppend(f.history.accepted, Submission(o, f.config.reportingRound + 1, value, now), f.config.reportingRound + 1);
  }

  /** Whoever is enabled and did not start the round can report to it. */
  lemma RestCanVote(rt: Runtime, s: State, s': State, id: FeedId, o: AccountId, p: AccountId, votes: AccountId -> Value)
    requires id in s.feeds && StatusesOk(s.feeds[id]) && s.feeds[id].config.reportingRound + 1 < U32_MAX
    requires s.feeds[id].config.reportingRound + s.feeds[id].config.restartDelay < U32_MAX
    requires forall q :: q in s.feeds[id].history.openings ==> q <= s.feeds[id].config.reportingRound
    requires id in s'.feeds && Started(s.feeds[id], s'.feeds[id], o, votes(o), s.now)
    requires p != o && p in EnabledOracles(s.feeds[id].statuses) && InBounds(s.feeds[id].config, votes(p))
    requires Creditable(rt, s'.oracles, p, s.feeds[id].config.payment)
    ensures CanVote(rt, s', id, p, votes)
  {
    var f, g := s.feeds[id], s'.feeds[id];
    assert StatusOk(f, p, f.statuses[p]);
    assert p in f.statuses - {o} && p in g.statuses - {o};
    assert g.statuses[p] == (g.statuses - {o})[p] == f.statuses[p];
  }

  /** The enabled oracles suffice for the next round, with these votes, and can be paid. */
  ghost predicate Quorate(rt: Runtime, s: State, id: FeedId, votes: AccountId -> Value)
    requires id in s.feeds
  {
    var f := s.feeds[id];
    && f.config.countBounds.min <= f.config.oracleCount && f.config.restartDelay < f.config.oracleCount
    && (forall o :: o in EnabledOracles(f.statuses) ==>
          InBounds(f.config, votes(o)) && Creditable(rt, s.oracles, o, f.config.payment))
    && Affordable(rt, s.fund.free, f.config, f.config.countBounds.min, f.config.payment)
  }

  lemma StartThenShort(rt: Runtime, s: State, id: FeedId, o: AccountId, votes: AccountId -> Value)
    requires RuntimeOk(rt) && Reachable(rt, s) && id in s.feeds && Quorate(rt, s, id, votes)
    requires var f := s.feeds[id];
             && f.config.reportingRound + 1 < U32_MAX && f.config.reportingRound + f.config.restartDelay < U32_MAX
             && o in EnabledOracles(f.statuses) && CanStartNext(rt, f, s.now, o) && !Stalled(rt, f, s.now)
    ensures var f := s.feeds[id]; var r: RoundId := f.config.reportingRound + 1;
            var c := Submit(o, id, r, votes(o), false); var s' := Step(rt, s, c).state;
            && InRange(s, c) && Reachable(rt, s')
            && f.config.countBounds.min > 0 && id in s'.feeds && s'.feeds[id].config.reportingRound == r
            && Short(rt, s', id, f.config.countBounds.min - 1, EnabledOracles(f.statuses) - {o}, votes)
  {
    hide Reachable, FeedInv, CountersOk, WindowOk, OpenOk, OriginOk, SubmitToFeed, Step, Affordable, InRange, ValuesOf,
      Stalled, CanStartNext, CanVote, Started, Creditable;
    var f := s.feeds[id];
    var r: RoundId := f.config.reportingRound + 1;
    ReachableOrigins(rt, s, id);
    ExtentOf(rt, f);
    NoValuesYet(rt, f);
    StartIsTaken(rt, f, s.now, o, votes(o));
    PaidStep(rt, s, id, o, r, votes(o), f.config.countBounds.min);
    var s' := Step(rt, s, Submit(o, id, r, votes(o), false)).state;
    var g := s'.feeds[id];
    DebtKeepsStart(f, SubmitToFeed(rt, f, s.now, o, r, votes(o)).value.0, g, o, votes(o), s.now);
    StarterVoted(f, g, o, votes(o), s.now);
    OracleCountIsExact(rt, s, id);
    StatusesOf(rt, f);
    forall p | p in EnabledOracles(f.statuses) - {o} ensures CanVote(rt, s', id, p, votes) {
      CreditableSame(rt, s.oracles, s'.oracles, p, f.config.payment);
      RestCanVote(rt, s, s', id, o, p, votes);
    }
  }

  lemma CreditableSame(
    rt: Runtime, oracles: map<AccountId, OracleMeta>, later: map<AccountId, OracleMeta>, p: AccountId, payment: Balance)
    requires Creditable(rt, oracles, p, payment) && (p in oracles ==> p in later && later[p] == oracles[p])
    ensures Creditable(rt, later, p, payment)
  {
  }

  lemma DebtKeepsStart(f: FeedState, g: FeedState, h: FeedState, o: AccountId, value: Value, now: BlockNumber)
    requires f.config.reportingRound < U32_MAX && Started(f, g, o, value, now)
    requires h == g.(config := h.config) && h.config == g.config.(debt := h.config.debt)
    ensures Started(f, h, o, value, now)
    ensures h.config.reportingRound == f.config.reportingRound + 1
    ensures h.history.openings == f.history.openings[f.config.reportingRound + 1 := OpeningTerms(f.config, ByOracle(o), now)]
    ensures f.config.countBounds.min > 1 ==> f.config.reportingRound in h.rounds
  {
  }

  lemma StatusesOf(rt: Runtime, f: FeedState)
    requires FeedInv(rt, f)
    ensures StatusesOk(f)
  {
  }

  /**
   In every reachable state with a supersedable round, enough enabled oracles and enough money, there is a run of
   submissions by enabled oracles, with whatever admissible values, that opens the next round and gives it its own answer.
   */
  lemma NextRoundCanBeAnswered(rt: Runtime, s: State, id: FeedId, votes: AccountId -> Value)
    requires RuntimeOk(rt) && Reachable(rt, s) && id in s.feeds && Quorate(rt, s, id, votes)
    requires var f := s.feeds[id];
             && f.config.reportingRound + 1 < U32_MAX && f.config.reportingRound + f.config.restartDelay < U32_MAX
             && IsSupersedable(rt, f, s.now, f.config.reportingRound) && !Stalled(rt, f, s.now)
    ensures var f := s.feeds[id];
            exists calls :: AnsweringRun(rt, s, calls, id, Next(f.config.reportingRound), f.config.countBounds.min,
                                         EnabledOracles(f.statuses), votes)
  {
    hide Reachable, IsSupersedable, Stalled, CanStartNext, Step, Short, AnsweringRun, InRange, Affordable;
    var f := s.feeds[id];
    var r := Next(f.config.reportingRound);
    var voters := EnabledOracles(f.statuses);
    SomebodyIsEligible(rt, s, id);
    var o :| o in voters && CanStartNext(rt, f, s.now, o);
    StartThenShort(rt, s, id, o, votes);
    var s' := Step(rt, s, Submit(o, id, r, votes(o), false)).state;
    OpenRoundCanBeAnswered(rt, s', id, f.config.countBounds.min - 1, voters - {o}, votes);
    var rest :| AnsweringRun(rt, s', rest, id, r, f.config.countBounds.min - 1, voters - {o}, votes);
    VoteFirst(rt, s, o, rest, id, r, f.config.countBounds.min, voters, votes);
    assert AnsweringRun(rt, s, [Submit(o, id, r, votes(o), false)] + rest, id, r, f.config.countBounds.min, voters, votes);
  }
}
