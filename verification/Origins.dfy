/** Which round every stored answer comes from, told from the history alone. */
module Origins {
  import opened Types
  import opened Medians
  import opened Feeds
  import opened FeedInvariant
  import opened RoundSteps
  import opened FeedSteps
  import opened Clocks

  // --- what the history says ---

  /** A round opened on these terms has run out of time. */
  predicate Expired(rt: Runtime, o: Opening, now: BlockNumber) {
    o.openedAt > 0 && o.timeout > 0 && SaturatingAdd(o.openedAt, o.timeout, rt.blockMax) < now
  }

  /**
   Round `k` has an answer of its own: it reached its minimum and, if the next round was opened,
   it had reached its maximum or had not expired by then.
   */
  predicate Own(rt: Runtime, h: History, k: RoundId) {
    && k in h.openings
    && var o, n := h.openings[k], |ValuesOf(h.accepted, k)|;
       && o.countBounds.min <= n
       && (k + 1 in h.openings ==> n == o.countBounds.max || !Expired(rt, o, h.openings[k + 1].openedAt))
  }

  /** The last round up to `r` with an answer of its own, or 0 for the seed. */
  function LastOwn(rt: Runtime, h: History, r: RoundId): (k: RoundId)
    ensures k <= r && (k > 0 ==> Own(rt, h, k))
  {
    if r == 0 then 0 else if Own(rt, h, r) then r else LastOwn(rt, h, r - 1)
  }

  lemma {:induction false} LastOwnIsLast(rt: Runtime, h: History, r: RoundId, p: RoundId)
    requires LastOwn(rt, h, r) < p <= r
    ensures !Own(rt, h, p)
  {
    if p < r {
      LastOwnIsLast(rt, h, r - 1, p);
    }
  }

  lemma {:induction false} LastOwnSame(rt: Runtime, h: History, later: History, r: RoundId)
    requires forall k :: 1 <= k <= r ==> (Own(rt, h, k) <==> Own(rt, later, k))
    ensures LastOwn(rt, h, r) == LastOwn(rt, later, r)
  {
    if r > 0 {
      LastOwnSame(rt, h, later, r - 1);
    }
  }

  /** Whether any round up to `r` has an answer of its own. */
  lemma LastOwnIff(rt: Runtime, h: History, r: RoundId)
    ensures LastOwn(rt, h, r) > 0 <==> exists k :: 1 <= k <= r && Own(rt, h, k)
  {
    if LastOwn(rt, h, r) == 0 {
      forall k | 1 <= k <= r ensures !Own(rt, h, k) {
        LastOwnIsLast(rt, h, r, k);
      }
    }
  }

  // --- the invariant ---

  ghost predicate AnswersFollow(rt: Runtime, f: FeedState) {
    forall r :: r in f.rounds && Answered(f.rounds[r]) ==> f.rounds[r].answeredInRound == Some(LastOwn(rt, f.history, r))
  }

  /** The reporting round accepts submissions until it reaches its maximum, and then has an answer. */
  ghost predicate ReportingOpen(f: FeedState) {
    var r := f.config.reportingRound;
    r in f.history.openings ==>
      && (r in f.details <==> |ValuesOf(f.history.accepted, r)| < f.history.openings[r].countBounds.max)
      && (r !in f.details ==> r in f.rounds && Answered(f.rounds[r]))
  }

  /** A round that stays open behind its successor had not expired when that was opened. */
  ghost predicate LateOpen(rt: Runtime, f: FeedState) {
    forall r :: r in f.details && r < f.config.reportingRound ==>
      && r in f.history.openings && r + 1 in f.history.openings
      && !Expired(rt, f.history.openings[r], f.history.openings[r + 1].openedAt)
  }

  /** A round is succeeded only once it has expired or reached its minimum. */
  ghost predicate SucceededAt(rt: Runtime, h: History, r: RoundId) {
    r in h.openings && r + 1 in h.openings ==>
      || Expired(rt, h.openings[r], h.openings[r + 1].openedAt)
      || h.openings[r].countBounds.min <= |ValuesOf(h.accepted, r)|
  }

  ghost predicate Succeeded(rt: Runtime, h: History) {
    forall r: RoundId :: SucceededAt(rt, h, r)
  }

  ghost predicate TermsOk(h: History) {
    forall r :: r in h.openings ==> BoundsOk(h.openings[r].countBounds)
  }

  /** Before the first valid round there is only the seed. */
  ghost predicate SeedBefore(f: FeedState) {
    forall p :: p in f.rounds && Answered(f.rounds[p]) && BeforeValid(f.config, p) ==> f.rounds[p].answeredInRound == Some(0)
  }

  ghost predicate BeforeValid(c: FeedConfig, p: RoundId) {
    c.firstValidRound.Some? ==> p < c.firstValidRound.value
  }

  /** The accepted submissions for round `k` reached its minimum. */
  ghost predicate Reached(h: History, k: RoundId) {
    k in h.openings && h.openings[k].countBounds.min <= |ValuesOf(h.accepted, k)|
  }

  /** As long as nothing was pruned, the first valid round is the first that reached its minimum. */
  ghost predicate FirstReached(f: FeedState) {
    f.config.nextRoundToPrune == 1 ==>
      && (forall k: RoundId :: BeforeValid(f.config, k) ==> !Reached(f.history, k))
      && (f.config.firstValidRound.Some? ==> Reached(f.history, f.config.firstValidRound.value))
  }

  /** Submissions as they are stored: in order of acceptance below the minimum, sorted from then on. */
  function Arranged(values: seq<Value>, min: u32): seq<Value> {
    if |values| < min then values else Sort(values)
  }

  ghost predicate StoredInOrder(f: FeedState) {
    forall r :: r in f.details ==>
      f.details[r].submissions == Arranged(ValuesOf(f.history.accepted, r), f.details[r].countBounds.min)
  }

  ghost predicate OriginOk(rt: Runtime, f: FeedState) {
    && AnswersFollow(rt, f) && SeedBefore(f) && FirstReached(f)
    && ReportingOpen(f) && LateOpen(rt, f) && StoredInOrder(f)
    && Succeeded(rt, f.history) && TermsOk(f.history)
  }

  /** How far the rounds, details and openings of a feed reach. */
  ghost predicate Extent(f: FeedState) {
    var r := f.config.reportingRound;
    && r in f.rounds && BoundsOk(f.config.countBounds)
    && (forall p :: p in f.rounds ==> p <= r)
    && (forall p :: p in f.details ==> 1 <= p <= r)
    && (forall p :: p in f.history.openings <==> 1 <= p <= r)
  }

  lemma ExtentOf(rt: Runtime, f: FeedState)
    requires FeedInv(rt, f)
    ensures Extent(f) && CountersOk(f.config) && WindowOk(f) && OpenOk(rt, f)
  {
    hide ProvenanceOk, CarryOk, OpenOk, SubmissionsOk, CountsOk, StatusesOk, OracleCountOk, FairStarts, StartedAtLeast;
    assert InWindow(f.config, f.config.reportingRound) || f.config.reportingRound == 0;
  }

  // --- opening the next round ---

  lemma TimedOutIffExpired(rt: Runtime, f: FeedState, now: BlockNumber)
    requires FeedInv(rt, f) && ClockOk(f, now) && f.config.reportingRound > 0
    ensures var r := f.config.reportingRound;
            && r in f.history.openings && r + 1 !in f.history.openings
            && (IsTimedOut(rt, f, now, r) <==> r in f.details && Expired(rt, f.history.openings[r], now))
  {
    var r := f.config.reportingRound;
    hide ProvenanceOk, CarryOk, SubmissionsOk, CountsOk, StatusesOk, OracleCountOk, FairStarts;
    if r in f.details {
      assert OpenRoundOk(rt, f, r);
      assert RoundTimes(f.history, r, f.rounds[r]);
    }
  }

  /** The history once round `r` has a successor. */
  ghost function WithNext(h: History, r: RoundId, next: Opening): History
    requires r < U32_MAX
  {
    h.(openings := h.openings[r + 1 := next])
  }

  lemma OwnWithNext(rt: Runtime, h: History, r: RoundId, next: Opening, k: RoundId)
    requires k <= r < U32_MAX && r in h.openings && r + 1 !in h.openings
    ensures Own(rt, WithNext(h, r, next), k)
       <==> && Own(rt, h, k)
            && (k == r ==> |ValuesOf(h.accepted, r)| == h.openings[r].countBounds.max
                           || !Expired(rt, h.openings[r], next.openedAt))
  {
  }

  lemma WithinMaximum(rt: Runtime, f: FeedState, r: RoundId)
    requires FeedInv(rt, f) && r in f.history.openings
    ensures |ValuesOf(f.history.accepted, r)| <= f.history.openings[r].countBounds.max
  {
    hide RoundSide, SubmissionsOk, OpeningsOk, StatusesOk, OracleCountOk, ValuesOf;
  }

  /** Only the reporting round can lose its own answer by an opening, and exactly by timing out. */
  lemma OwnAfterOpening(rt: Runtime, f: FeedState, now: BlockNumber, starter: Starter, k: RoundId)
    requires FeedInv(rt, f) && ClockOk(f, now) && ReportingOpen(f) && 1 <= k <= f.config.reportingRound < U32_MAX
    ensures Own(rt, NextOpened(f, now, starter).history, k)
       <==> Own(rt, f.history, k) && (k == f.config.reportingRound ==> !IsTimedOut(rt, f, now, k))
  {
    hide FeedInv, ClockOk, IsTimedOut, Expired, ValuesOf, Own;
    var r := f.config.reportingRound;
    TimedOutIffExpired(rt, f, now);
    WithinMaximum(rt, f, r);
    OwnWithNext(rt, f.history, r, OpeningTerms(f.config, starter, now), k);
  }

  lemma LastOwnAfterOpening(rt: Runtime, f: FeedState, now: BlockNumber, starter: Starter, p: RoundId)
    requires FeedInv(rt, f) && ClockOk(f, now) && ReportingOpen(f) && p <= f.config.reportingRound < U32_MAX
    ensures LastOwn(rt, NextOpened(f, now, starter).history, p)
         == if p > 0 && p == f.config.reportingRound && IsTimedOut(rt, f, now, p) then LastOwn(rt, f.history, p - 1)
            else LastOwn(rt, f.history, p)
  {
    hide FeedInv, ClockOk, ReportingOpen, IsTimedOut, Own, NextOpened;
    var later := NextOpened(f, now, starter).history;
    var timedOut := p > 0 && p == f.config.reportingRound && IsTimedOut(rt, f, now, p);
    var q: RoundId := if timedOut then p - 1 else p;
    forall k | 1 <= k <= q ensures Own(rt, f.history, k) <==> Own(rt, later, k) {
      OwnAfterOpening(rt, f, now, starter, k);
    }
    LastOwnSame(rt, f.history, later, q);
    if timedOut {
      OwnAfterOpening(rt, f, now, starter, p);
    }
  }

  lemma ReadyRounds(rt: Runtime, f: FeedState, now: BlockNumber, p: RoundId)
    requires CountersOk(f.config) && WindowOk(f) && ReadyState(rt, f, now).Ok? && p in f.rounds
    ensures var g := ReadyState(rt, f, now).value; var r := f.config.reportingRound;
            && g.rounds.Keys == f.rounds.Keys && g.config == f.config && g.history == f.history
            && (if IsTimedOut(rt, f, now, r) && p == r
                then r > 0 && r - 1 in f.rounds && Answered(f.rounds[r - 1])
                     && g.rounds[r].answeredInRound == f.rounds[r - 1].answeredInRound
                else g.rounds[p] == f.rounds[p])
  {
  }

  lemma AnswerAfterOpening(rt: Runtime, f: FeedState, now: BlockNumber, starter: Starter, p: RoundId)
    requires FeedInv(rt, f) && ClockOk(f, now) && ReportingOpen(f) && AnswersFollow(rt, f)
    requires f.config.reportingRound < U32_MAX && ReadyState(rt, f, now).Ok? && p in f.rounds
    ensures var g := ReadyState(rt, f, now).value;
            && g.rounds.Keys == f.rounds.Keys && g.config == f.config && g.history == f.history
            && (Answered(g.rounds[p]) ==>
                  g.rounds[p].answeredInRound == Some(LastOwn(rt, NextOpened(f, now, starter).history, p)))
  {
    hide FeedInv, CountersOk, WindowOk, OpenOk, ClockOk, ReportingOpen, IsTimedOut, ReadyState, LastOwn, NextOpened;
    ExtentOf(rt, f);
    ReadyRounds(rt, f, now, p);
    LastOwnAfterOpening(rt, f, now, starter, p);
  }

  lemma AnswersAfterOpening(rt: Runtime, f: FeedState, now: BlockNumber, starter: Starter)
    requires FeedInv(rt, f) && ClockOk(f, now) && ReportingOpen(f) && AnswersFollow(rt, f)
    requires f.config.reportingRound < U32_MAX && ReadyState(rt, f, now).Ok?
    ensures AnswersFollow(rt, NextOpened(ReadyState(rt, f, now).value, now, starter))
  {
    hide FeedInv, CountersOk, WindowOk, OpenOk, ClockOk, ReportingOpen, ReadyState, LastOwn;
    ExtentOf(rt, f);
    AnswerAfterOpening(rt, f, now, starter, f.config.reportingRound);
    var next := NextOpened(ReadyState(rt, f, now).value, now, starter);
    forall p | p in next.rounds && Answered(next.rounds[p])
      ensures next.rounds[p].answeredInRound == Some(LastOwn(rt, next.history, p))
    {
      assert p in f.rounds;
      AnswerAfterOpening(rt, f, now, starter, p);
    }
  }

  lemma SucceededReporting(rt: Runtime, f: FeedState, now: BlockNumber)
    requires FeedInv(rt, f) && ClockOk(f, now) && OriginOk(rt, f) && f.config.reportingRound > 0
    requires IsSupersedable(rt, f, now, f.config.reportingRound)
    ensures var r := f.config.reportingRound;
            && r in f.history.openings
            && (Expired(rt, f.history.openings[r], now)
                || f.history.openings[r].countBounds.min <= |ValuesOf(f.history.accepted, r)|)
  {
    TimedOutIffExpired(rt, f, now);
    var r := f.config.reportingRound;
    if r in f.details {
      SubmissionCount(rt, f, r);
      hide Expired;
    }
  }

  lemma SubmissionCount(rt: Runtime, f: FeedState, r: RoundId)
    requires OpenOk(rt, f) && r in f.details
    ensures r in f.rounds && r in f.history.openings
    ensures var o, n := f.history.openings[r], |ValuesOf(f.history.accepted, r)|;
            && n == |f.details[r].submissions| < o.countBounds.max && o.countBounds == f.details[r].countBounds
            && (Answered(f.rounds[r]) <==> n >= o.countBounds.min)
  {
    assert OpenRoundOk(rt, f, r);
    assert |multiset(f.details[r].submissions)| == |multiset(ValuesOf(f.history.accepted, r))|;
  }

  lemma ReportingOpenAfterOpening(rt: Runtime, f: FeedState, now: BlockNumber, starter: Starter)
    requires FeedInv(rt, f) && f.config.reportingRound < U32_MAX && ReadyState(rt, f, now).Ok?
    ensures ReportingOpen(NextOpened(ReadyState(rt, f, now).value, now, starter))
  {
    hide FeedInv, CountersOk, WindowOk, OpenOk, ReadyState, ValuesOf;
    ExtentOf(rt, f);
    NoValuesYet(rt, f);
    DetailsAfterReady(rt, f, now, f.config.reportingRound);
  }

  lemma NoValuesYet(rt: Runtime, f: FeedState)
    requires FeedInv(rt, f) && f.config.reportingRound < U32_MAX
    ensures ValuesOf(f.history.accepted, f.config.reportingRound + 1) == []
  {
    hide RoundSide, CountsOk, StatusesOk, OracleCountOk, SubmissionsOk, OpeningsOk;
    NothingAcceptedYet(f);
  }

  lemma DetailsAfterReady(rt: Runtime, f: FeedState, now: BlockNumber, p: RoundId)
    requires ReadyState(rt, f, now).Ok?
    ensures var g := ReadyState(rt, f, now).value;
            && g.config == f.config && g.history == f.history
            && (p in g.details ==> p in f.details && (p == f.config.reportingRound ==> !IsTimedOut(rt, f, now, p)))
  {
  }

  lemma LateOpenAfterOpening(rt: Runtime, f: FeedState, now: BlockNumber, starter: Starter)
    requires FeedInv(rt, f) && ClockOk(f, now) && LateOpen(rt, f)
    requires f.config.reportingRound < U32_MAX && ReadyState(rt, f, now).Ok?
    ensures LateOpen(rt, NextOpened(ReadyState(rt, f, now).value, now, starter))
  {
    hide FeedInv, CountersOk, WindowOk, OpenOk, ClockOk, Expired, IsTimedOut, ReadyState;
    var r := f.config.reportingRound;
    ExtentOf(rt, f);
    if r > 0 {
      TimedOutIffExpired(rt, f, now);
    }
    DetailsAfterReady(rt, f, now, r);
    var g := NextOpened(ReadyState(rt, f, now).value, now, starter);
    forall p | p in g.details && p < g.config.reportingRound
      ensures p in g.history.openings && p + 1 in g.history.openings
           && !Expired(rt, g.history.openings[p], g.history.openings[p + 1].openedAt)
    {
      DetailsAfterReady(rt, f, now, p);
    }
  }

  lemma SucceededAtWithNext(rt: Runtime, h: History, r: RoundId, next: Opening, p: RoundId)
    requires r < U32_MAX && SucceededAt(rt, h, p) && (p in h.openings ==> p <= r)
    requires r + 1 !in h.openings && r + 2 !in h.openings
    requires r in h.openings ==>
               Expired(rt, h.openings[r], next.openedAt) || h.openings[r].countBounds.min <= |ValuesOf(h.accepted, r)|
    ensures SucceededAt(rt, WithNext(h, r, next), p)
  {
    hide Expired, ValuesOf;
  }

  lemma SucceededWithNext(rt: Runtime, h: History, r: RoundId, next: Opening)
    requires r < U32_MAX && (forall k :: k in h.openings ==> k <= r)
    requires Succeeded(rt, h) && TermsOk(h) && BoundsOk(next.countBounds)
    requires r in h.openings ==>
               Expired(rt, h.openings[r], next.openedAt) || h.openings[r].countBounds.min <= |ValuesOf(h.accepted, r)|
    ensures Succeeded(rt, WithNext(h, r, next)) && TermsOk(WithNext(h, r, next))
  {
    hide Expired, ValuesOf, SucceededAt;
    forall p: RoundId ensures SucceededAt(rt, WithNext(h, r, next), p) {
      SucceededAtWithNext(rt, h, r, next, p);
    }
  }

  lemma SucceededAfterOpening(rt: Runtime, f: FeedState, now: BlockNumber, starter: Starter)
    requires FeedInv(rt, f) && ClockOk(f, now) && OriginOk(rt, f) && f.config.reportingRound < U32_MAX
    requires IsSupersedable(rt, f, now, f.config.reportingRound)
    ensures var h := NextOpened(f, now, starter).history; Succeeded(rt, h) && TermsOk(h)
  {
    hide FeedInv, CountersOk, WindowOk, OpenOk, ClockOk, Expired, IsSupersedable, Succeeded, TermsOk, ValuesOf,
      AnswersFollow, ReportingOpen, LateOpen;
    ExtentOf(rt, f);
    if f.config.reportingRound > 0 {
      SucceededReporting(rt, f, now);
    }
    SucceededWithNext(rt, f.history, f.config.reportingRound, OpeningTerms(f.config, starter, now));
  }

  lemma SeedAfterOpening(rt: Runtime, f: FeedState, now: BlockNumber, starter: Starter)
    requires FeedInv(rt, f) && SeedBefore(f) && f.config.reportingRound < U32_MAX && ReadyState(rt, f, now).Ok?
    ensures SeedBefore(NextOpened(ReadyState(rt, f, now).value, now, starter))
  {
    hide FeedInv, CountersOk, WindowOk, OpenOk, IsTimedOut, ReadyState;
    ExtentOf(rt, f);
    ReadyRounds(rt, f, now, f.config.reportingRound);
    var g := NextOpened(ReadyState(rt, f, now).value, now, starter);
    forall p | p in g.rounds && Answered(g.rounds[p]) && BeforeValid(g.config, p)
      ensures g.rounds[p].answeredInRound == Some(0)
    {
      assert p in f.rounds;
      ReadyRounds(rt, f, now, p);
    }
  }

  lemma ReachedAfterOpening(rt: Runtime, f: FeedState, now: BlockNumber, starter: Starter, k: RoundId)
    requires FeedInv(rt, f) && f.config.reportingRound < U32_MAX
    ensures Reached(NextOpened(f, now, starter).history, k) <==> Reached(f.history, k)
  {
    hide FeedInv, CountersOk, WindowOk, OpenOk, ValuesOf;
    ExtentOf(rt, f);
    NoValuesYet(rt, f);
  }

  lemma FirstAfterOpening(rt: Runtime, f: FeedState, now: BlockNumber, starter: Starter)
    requires FeedInv(rt, f) && FirstReached(f) && f.config.reportingRound < U32_MAX && ReadyState(rt, f, now).Ok?
    ensures FirstReached(NextOpened(ReadyState(rt, f, now).value, now, starter))
  {
    hide FeedInv, ReadyState, Reached;
    DetailsAfterReady(rt, f, now, 0);
    assert NextOpened(ReadyState(rt, f, now).value, now, starter).history == NextOpened(f, now, starter).history;
    forall k: RoundId ensures Reached(NextOpened(f, now, starter).history, k) <==> Reached(f.history, k) {
      ReachedAfterOpening(rt, f, now, starter, k);
    }
  }

  lemma OrderAfterOpening(rt: Runtime, f: FeedState, now: BlockNumber, starter: Starter)
    requires FeedInv(rt, f) && StoredInOrder(f) && f.config.reportingRound < U32_MAX && ReadyState(rt, f, now).Ok?
    ensures StoredInOrder(NextOpened(ReadyState(rt, f, now).value, now, starter))
  {
    hide FeedInv, CountersOk, WindowOk, OpenOk, ValuesOf, Sort, IsTimedOut;
    ExtentOf(rt, f);
    NoValuesYet(rt, f);
  }

  lemma OriginOpen(rt: Runtime, f: FeedState, now: BlockNumber, starter: Starter)
    requires FeedInv(rt, f) && ClockOk(f, now) && OriginOk(rt, f) && f.config.reportingRound < U32_MAX
    requires IsSupersedable(rt, f, now, f.config.reportingRound) && ReadyState(rt, f, now).Ok?
    ensures OriginOk(rt, NextOpened(ReadyState(rt, f, now).value, now, starter))
  {
    hide FeedInv, ClockOk, AnswersFollow, SeedBefore, FirstReached, StoredInOrder, ReportingOpen, LateOpen, Succeeded, TermsOk,
      IsSupersedable, IsTimedOut;
    AnswersAfterOpening(rt, f, now, starter);
    SeedAfterOpening(rt, f, now, starter);
    FirstAfterOpening(rt, f, now, starter);
    OrderAfterOpening(rt, f, now, starter);
    ReportingOpenAfterOpening(rt, f, now, starter);
    LateOpenAfterOpening(rt, f, now, starter);
    SucceededAfterOpening(rt, f, now, starter);
  }

  // --- accepting a submission ---

  ghost function WithSubmission(h: History, s: Submission): History {
    h.(accepted := h.accepted + [s])
  }

  lemma OwnWithSubmission(rt: Runtime, h: History, s: Submission, k: RoundId)
    requires s.round in h.openings && (Own(rt, h, s.round) ==> |ValuesOf(h.accepted, s.round)| < h.openings[s.round].countBounds.max)
    ensures k != s.round ==> (Own(rt, WithSubmission(h, s), k) <==> Own(rt, h, k))
    ensures Own(rt, h, k) ==> Own(rt, WithSubmission(h, s), k)
  {
    ValuesAppend(h.accepted, s, k);
  }

  /** A round that accepts a submission has an answer of its own exactly from its minimum on. */
  lemma OwnOfAccepting(rt: Runtime, f: FeedState, oracle: AccountId, r: RoundId, s: Submission)
    requires OpenOk(rt, f) && Extent(f) && LateOpen(rt, f) && Accepting(f, oracle, r) && s.round == r
    ensures r in f.history.openings
    ensures var o, n := f.history.openings[r], |ValuesOf(f.history.accepted, r)|;
            && n == |f.details[r].submissions| < o.countBounds.max && o.countBounds == f.details[r].countBounds
            && |ValuesOf(WithSubmission(f.history, s).accepted, r)| == n + 1
            && (Own(rt, f.history, r) <==> o.countBounds.min <= n)
            && (Own(rt, WithSubmission(f.history, s), r) <==> o.countBounds.min <= n + 1)
            && (r < f.config.reportingRound && WindowOk(f) ==> o.countBounds.min <= n)
  {
    SubmissionCount(rt, f, r);
    ValuesAppend(f.history.accepted, s, r);
    hide OpenOk, Expired, ValuesOf;
  }

  /** What accepting submission `s` does to the feed, as far as the origin of answers is concerned. */
  ghost predicate Takes(f: FeedState, g: FeedState, s: Submission) {
    && g.history == WithSubmission(f.history, s) && g.config.reportingRound == f.config.reportingRound
    && g.config.nextRoundToPrune == f.config.nextRoundToPrune
    && s.round in f.details && s.round in f.rounds && g.rounds.Keys == f.rounds.Keys
    && (forall p :: p in f.rounds && p != s.round ==> g.rounds[p] == f.rounds[p])
    && (if |f.details[s.round].submissions| + 1 < f.details[s.round].countBounds.min
        then g.rounds[s.round] == f.rounds[s.round] && g.config.firstValidRound == f.config.firstValidRound
        else && Answered(g.rounds[s.round]) && g.rounds[s.round].answeredInRound == Some(s.round)
             && g.config.firstValidRound == Some(f.config.firstValidRound.GetOr(s.round)))
    && g.details.Keys <= f.details.Keys
    && (forall p :: p in g.details && p != s.round ==> g.details[p] == f.details[p])
    && (s.round in g.details ==>
          && g.details[s.round].countBounds == f.details[s.round].countBounds
          && g.details[s.round].submissions
             == Arranged(f.details[s.round].submissions + [s.value], f.details[s.round].countBounds.min))
    && (f.config.reportingRound in g.details <==>
          && f.config.reportingRound in f.details
          && (s.round == f.config.reportingRound ==>
                |f.details[s.round].submissions| + 1 < f.details[s.round].countBounds.max))
  }

  lemma LastOwnWithSubmission(rt: Runtime, f: FeedState, oracle: AccountId, s: Submission, p: RoundId)
    requires OpenOk(rt, f) && Extent(f) && LateOpen(rt, f) && Accepting(f, oracle, s.round)
    requires p < s.round || |f.details[s.round].submissions| + 1 < f.details[s.round].countBounds.min
    ensures LastOwn(rt, WithSubmission(f.history, s), p) == LastOwn(rt, f.history, p)
  {
    hide OpenOk, Extent, LateOpen, Own, WithSubmission;
    OwnOfAccepting(rt, f, oracle, s.round, s);
    hide Accepting;
    forall k | 1 <= k <= p ensures Own(rt, f.history, k) <==> Own(rt, WithSubmission(f.history, s), k) {
      OwnWithSubmission(rt, f.history, s, k);
    }
    LastOwnSame(rt, f.history, WithSubmission(f.history, s), p);
  }

  lemma AnswersAfterTaking(rt: Runtime, f: FeedState, g: FeedState, oracle: AccountId, s: Submission)
    requires OpenOk(rt, f) && WindowOk(f) && Extent(f) && LateOpen(rt, f) && AnswersFollow(rt, f)
    requires Accepting(f, oracle, s.round) && Takes(f, g, s)
    ensures AnswersFollow(rt, g)
  {
    OwnOfAccepting(rt, f, oracle, s.round, s);
    hide OpenOk, WindowOk, LateOpen, WithSubmission, Own;
    forall p | p in g.rounds && Answered(g.rounds[p])
      ensures g.rounds[p].answeredInRound == Some(LastOwn(rt, g.history, p))
    {
      if p < s.round || |f.details[s.round].submissions| + 1 < f.details[s.round].countBounds.min {
        LastOwnWithSubmission(rt, f, oracle, s, p);
      } else {
        assert p == s.round;
      }
    }
  }

  lemma SucceededAfterTaking(rt: Runtime, h: History, s: Submission)
    requires Succeeded(rt, h) && TermsOk(h)
    ensures Succeeded(rt, WithSubmission(h, s)) && TermsOk(WithSubmission(h, s))
  {
    hide Expired;
    forall p: RoundId ensures SucceededAt(rt, WithSubmission(h, s), p) {
      assert SucceededAt(rt, h, p);
      ValuesAppend(h.accepted, s, p);
    }
  }

  lemma OpenStateAfterTaking(rt: Runtime, f: FeedState, g: FeedState, oracle: AccountId, s: Submission)
    requires OpenOk(rt, f) && Extent(f) && LateOpen(rt, f) && ReportingOpen(f)
    requires Accepting(f, oracle, s.round) && Takes(f, g, s)
    ensures LateOpen(rt, g) && ReportingOpen(g)
  {
    hide OpenOk, Expired, Own, ValuesOf;
    AcceptedBounds(rt, f, s.round);
    OwnOfAccepting(rt, f, oracle, s.round, s);
    ValuesAppend(f.history.accepted, s, f.config.reportingRound);
  }

  lemma SeedAfterTaking(f: FeedState, g: FeedState, oracle: AccountId, s: Submission)
    requires CountersOk(f.config) && WindowOk(f) && Extent(f) && SeedBefore(f)
    requires Accepting(f, oracle, s.round) && Takes(f, g, s)
    ensures SeedBefore(g)
  {
    assert f.config.latestRound <= s.round by {
      assert Answered(f.rounds[f.config.latestRound]);
    }
    hide WindowOk;
  }

  lemma FirstAfterTaking(rt: Runtime, f: FeedState, g: FeedState, oracle: AccountId, s: Submission)
    requires CountersOk(f.config) && WindowOk(f) && OpenOk(rt, f) && Extent(f) && FirstReached(f)
    requires Accepting(f, oracle, s.round) && Takes(f, g, s)
    ensures FirstReached(g)
  {
    assert f.config.latestRound <= s.round by {
      assert Answered(f.rounds[f.config.latestRound]);
    }
    SubmissionCount(rt, f, s.round);
    hide WindowOk, OpenOk, ValuesOf;
    forall k: RoundId
      ensures k != s.round ==> (Reached(g.history, k) <==> Reached(f.history, k))
      ensures Reached(f.history, k) ==> Reached(g.history, k)
      ensures |ValuesOf(g.history.accepted, s.round)| == |f.details[s.round].submissions| + 1
    {
      ValuesAppend(f.history.accepted, s, k);
      ValuesAppend(f.history.accepted, s, s.round);
    }
  }

  lemma ArrangedAgain(values: seq<Value>, value: Value, min: u32)
    ensures Arranged(Arranged(values, min) + [value], min) == Arranged(values + [value], min)
  {
    hide Sort;
    if |values| >= min {
      SortSame(values);
      MedianIgnoresOrder(Sort(values) + [value], values + [value], 0);
    }
  }

  lemma SortSame(values: seq<Value>)
    ensures multiset(Sort(values)) == multiset(values) && |Sort(values)| == |values|
  {
  }

  lemma OrderAfterTaking(f: FeedState, g: FeedState, s: Submission)
    requires StoredInOrder(f) && Takes(f, g, s)
    ensures StoredInOrder(g)
  {
    hide Sort, ValuesOf;
    forall r | r in g.details
      ensures g.details[r].submissions == Arranged(ValuesOf(g.history.accepted, r), g.details[r].countBounds.min)
    {
      ValuesAppend(f.history.accepted, s, r);
      if r == s.round {
        ArrangedAgain(ValuesOf(f.history.accepted, r), s.value, f.details[r].countBounds.min);
      }
    }
  }

  lemma OriginTakes(rt: Runtime, f: FeedState, g: FeedState, oracle: AccountId, s: Submission)
    requires OpenOk(rt, f) && CountersOk(f.config) && WindowOk(f) && Extent(f) && OriginOk(rt, f)
    requires Accepting(f, oracle, s.round) && Takes(f, g, s)
    ensures OriginOk(rt, g)
  {
    hide OpenOk, CountersOk, WindowOk, Extent, Accepting, AnswersFollow, SeedBefore, FirstReached, StoredInOrder, ReportingOpen,
      LateOpen, Succeeded, TermsOk;
    AnswersAfterTaking(rt, f, g, oracle, s);
    SeedAfterTaking(f, g, oracle, s);
    FirstAfterTaking(rt, f, g, oracle, s);
    OrderAfterTaking(f, g, s);
    OpenStateAfterTaking(rt, f, g, oracle, s);
    SucceededAfterTaking(rt, f.history, s);
  }

  lemma RecordTakes(f: FeedState, now: BlockNumber, oracle: AccountId, r: RoundId, value: Value)
    requires Accepting(f, oracle, r) && |f.details[r].submissions| + 1 < f.details[r].countBounds.min
    requires f.details[r].countBounds.min <= f.details[r].countBounds.max
    ensures Takes(f, Recorded(f, now, oracle, r, value, f.details[r].submissions + [value]), Submission(oracle, r, value, now))
  {
  }

  lemma AnswerTakes(rt: Runtime, f: FeedState, now: BlockNumber, oracle: AccountId, r: RoundId, value: Value)
    requires Accepting(f, oracle, r) && |f.details[r].submissions| + 1 >= f.details[r].countBounds.min && r > 0
    ensures Takes(f, AnsweredState(rt, f, now, oracle, r, value), Submission(oracle, r, value, now))
  {
    hide Median, Sort;
  }

  /** An answered round reached its minimum or was closed as timed out. */
  lemma ReachedMinimum(rt: Runtime, f: FeedState, r: RoundId)
    requires FeedInv(rt, f) && OriginOk(rt, f) && r in f.rounds && r > 0 && Answered(f.rounds[r])
    ensures r in f.history.openings
    ensures (r + 1 in f.history.openings ==> !Expired(rt, f.history.openings[r], f.history.openings[r + 1].openedAt)) ==>
              f.history.openings[r].countBounds.min <= |ValuesOf(f.history.accepted, r)|
    ensures f.history.openings[r].countBounds.min <= f.history.openings[r].countBounds.max
  {
    hide FeedInv, CountersOk, WindowOk, OpenOk, Expired, ValuesOf, LastOwn;
    ExtentOf(rt, f);
    if r in f.details {
      SubmissionCount(rt, f, r);
    }
    assert SucceededAt(rt, f.history, r);
  }

  lemma OriginPrune(rt: Runtime, f: FeedState, target: RoundId)
    requires OriginOk(rt, f) && (target == f.config.nextRoundToPrune || target <= f.config.reportingRound)
    requires 1 <= f.config.nextRoundToPrune <= target
    requires forall p :: p in f.rounds ==> p == 0 || f.config.nextRoundToPrune <= p
    ensures OriginOk(rt, PrunedTo(f, target))
  {
    hide Succeeded, Expired, ValuesOf, Own;
  }

  lemma OriginAccept(rt: Runtime, f: FeedState, now: BlockNumber, oracle: AccountId, r: RoundId, value: Value)
    requires FeedInv(rt, f) && OriginOk(rt, f) && Accepting(f, oracle, r) && Accept(rt, f, now, oracle, r, value).Ok?
    ensures OriginOk(rt, Accept(rt, f, now, oracle, r, value).value)
  {
    hide FeedInv, WindowOk, OpenOk, OriginOk, Takes;
    ExtentOf(rt, f);
    SubmissionCount(rt, f, r);
    var s := Submission(oracle, r, value, now);
    if |f.details[r].submissions| + 1 < f.details[r].countBounds.min {
      AcceptedBounds(rt, f, r);
      RecordTakes(f, now, oracle, r, value);
      OriginTakes(rt, f, Accept(rt, f, now, oracle, r, value).value, oracle, s);
    } else {
      var g := AnsweredState(rt, f, now, oracle, r, value);
      AnswerTakes(rt, f, now, oracle, r, value);
      OriginTakes(rt, f, g, oracle, s);
      PruneOldestIsPrunedTo(g);
      if PruneOldest(g) != g {
        StoredFrom(f);
        OriginPrune(rt, g, g.config.nextRoundToPrune + 1);
      }
    }
  }

  lemma StoredFrom(f: FeedState)
    requires WindowOk(f)
    ensures forall p :: p in f.rounds ==> p == 0 || f.config.nextRoundToPrune <= p
  {
  }

  lemma AcceptedBounds(rt: Runtime, f: FeedState, r: RoundId)
    requires OpenOk(rt, f) && r in f.details
    ensures f.details[r].countBounds.min <= f.details[r].countBounds.max
  {
    assert OpenRoundOk(rt, f, r);
  }

  // --- the operations ---

  lemma OriginFrame(rt: Runtime, f: FeedState, g: FeedState)
    requires OriginOk(rt, f) && g.rounds == f.rounds && g.details == f.details && g.history == f.history
    requires g.config.reportingRound == f.config.reportingRound && g.config.firstValidRound == f.config.firstValidRound
    requires g.config.nextRoundToPrune == f.config.nextRoundToPrune
    ensures OriginOk(rt, g)
  {
  }

  lemma OriginRequest(rt: Runtime, f: FeedState, now: BlockNumber, requester: AccountId)
    requires FeedInv(rt, f) && ClockOk(f, now) && OriginOk(rt, f) && RequestRound(rt, f, now, requester).Ok?
    ensures OriginOk(rt, RequestRound(rt, f, now, requester).value)
  {
    hide FeedInv, ClockOk, OriginOk, IsSupersedable, IsTimedOut;
    OriginOpen(rt, f, now, ByRequest(requester));
    ReadyKeepsConfig(rt, f, now);
  }

  lemma OriginOpenIfEligible(rt: Runtime, f: FeedState, now: BlockNumber, oracle: AccountId, r: RoundId)
    requires FeedInv(rt, f) && ClockOk(f, now) && OriginOk(rt, f) && !Reopens(f, oracle, r)
    requires EnsureValidRound(rt, f, now, oracle, r).Ok? && OpenIfEligible(rt, f, now, oracle, r).Ok?
    ensures OriginOk(rt, OpenIfEligible(rt, f, now, oracle, r).value)
  {
    hide FeedInv, ClockOk, OriginOk, IsTimedOut;
    if MayStart(f, oracle, r) {
      ReadyKeepsConfig(rt, f, now);
      OriginOpen(rt, f, now, ByOracle(oracle));
      var g := NextOpened(ReadyState(rt, f, now).value, now, ByOracle(oracle));
      OriginFrame(rt, g, MarkStarted(g, oracle, r));
    }
  }

  lemma OriginSubmit(rt: Runtime, f: FeedState, now: BlockNumber, oracle: AccountId, r: RoundId, value: Value)
    requires FeedInv(rt, f) && ClockOk(f, now) && OriginOk(rt, f) && !Reopens(f, oracle, r)
    requires SubmitToFeed(rt, f, now, oracle, r, value).Ok?
    ensures OriginOk(rt, SubmitToFeed(rt, f, now, oracle, r, value).value.0)
  {
    hide FeedInv, ClockOk, OriginOk, WindowOk, OpenOk, EnsureValidRound, OpenIfEligible, Accept, Accepting;
    PartsOf(rt, f);
    OriginOpenIfEligible(rt, f, now, oracle, r);
    OpenIfEligibleKeeps(rt, f, now, oracle, r);
    AcceptingInOpened(rt, f, now, oracle, r, value);
    OriginAccept(rt, OpenIfEligible(rt, f, now, oracle, r).value, now, oracle, r, value);
  }

  // --- both records of the past ---

  ghost predicate TraceOk(rt: Runtime, f: FeedState, now: BlockNumber) {
    ClockOk(f, now) && OriginOk(rt, f)
  }

  lemma TraceFrame(rt: Runtime, f: FeedState, g: FeedState, now: BlockNumber, later: BlockNumber)
    requires TraceOk(rt, f, now) && now <= later
    requires g.rounds == f.rounds && g.details == f.details && g.history == f.history
    requires g.config.reportingRound == f.config.reportingRound && g.config.firstValidRound == f.config.firstValidRound
    requires g.config.nextRoundToPrune == f.config.nextRoundToPrune
    ensures TraceOk(rt, g, later)
  {
    hide ClockOk, OriginOk;
    ClockFrame(f, g, now, later);
    OriginFrame(rt, f, g);
  }

  lemma TraceWindow(rt: Runtime, f: FeedState, window: Window, now: BlockNumber)
    requires FeedInv(rt, f) && TraceOk(rt, f, now)
    ensures TraceOk(rt, PrunedToWindow(f.(config := f.config.(pruningWindow := window))), now)
  {
    hide FeedInv, ClockOk, OriginOk, WindowOk, OpenOk;
    ExtentOf(rt, f);
    var g := f.(config := f.config.(pruningWindow := window));
    TraceFrame(rt, f, g, now, now);
    StoredFrom(f);
    PruneTargetReachable(g.config);
    ClockPrune(g, PruneTarget(g.config), now);
    OriginPrune(rt, g, PruneTarget(g.config));
  }

  lemma TraceRequest(rt: Runtime, f: FeedState, now: BlockNumber, requester: AccountId)
    requires FeedInv(rt, f) && TraceOk(rt, f, now) && RequestRound(rt, f, now, requester).Ok?
    ensures TraceOk(rt, RequestRound(rt, f, now, requester).value, now)
  {
    hide FeedInv, ClockOk, OriginOk, RequestRound;
    ClockRequest(rt, f, now, requester);
    OriginRequest(rt, f, now, requester);
  }

  lemma TraceSubmit(rt: Runtime, f: FeedState, now: BlockNumber, oracle: AccountId, r: RoundId, value: Value)
    requires FeedInv(rt, f) && TraceOk(rt, f, now) && !Reopens(f, oracle, r) && SubmitToFeed(rt, f, now, oracle, r, value).Ok?
    ensures TraceOk(rt, SubmitToFeed(rt, f, now, oracle, r, value).value.0, now)
  {
    hide FeedInv, ClockOk, OriginOk, SubmitToFeed;
    ClockSubmit(rt, f, now, oracle, r, value);
    OriginSubmit(rt, f, now, oracle, r, value);
  }
}
