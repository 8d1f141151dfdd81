/** What readers of a feed may rely on, in every reachable state. */
module Consumers {
  import opened Types
  import opened Medians
  import opened Feeds
  import opened FeedInvariant
  import opened RoundSteps
  import opened FeedSteps
  import opened Progress
  import opened Clocks
  import opened Origins
  import opened Pallets
  import opened Ledgers
  import opened Runs

  lemma ReachableFeed(rt: Runtime, s: State, id: FeedId)
    requires RuntimeOk(rt) && Reachable(rt, s) && id in s.feeds
    ensures FeedInv(rt, s.feeds[id])
  {
    ReachableInv(rt, s);
    assert FeedOk(rt, s, id, s.feeds[id]);
  }

  /** Data is served for round 0 and the whole window, except for a reporting round without an answer. */
  lemma DataIsAWindow(rt: Runtime, s: State, id: FeedId, r: RoundId)
    requires RuntimeOk(rt) && Reachable(rt, s) && id in s.feeds
    ensures var f := s.feeds[id];
            && (r in f.rounds <==> r == 0 || f.config.nextRoundToPrune <= r <= f.config.reportingRound)
            && (r in f.details ==> f.config.nextRoundToPrune <= r <= f.config.reportingRound)
            && (r in f.rounds && r < f.config.reportingRound ==> DataAt(f, r).Some?)
            && (r in f.rounds && DataAt(f, r).None? ==> f.rounds[r] == Round(f.rounds[r].startedAt, None, None, None))
  {
    hide Reachable, CountersOk, ProvenanceOk, CarryOk, OpenOk, OracleSide;
    ReachableFeed(rt, s, id);
    var f := s.feeds[id];
    assert InWindow(f.config, r) <==> f.config.nextRoundToPrune <= r <= f.config.reportingRound;
  }

  /** The latest and the first valid round always have data. */
  lemma LatestIsServed(rt: Runtime, s: State, id: FeedId)
    requires RuntimeOk(rt) && Reachable(rt, s) && id in s.feeds
    ensures var f := s.feeds[id]; var c := f.config;
            && DataAt(f, c.latestRound) == Some(LatestData(f))
            && c.latestRound <= c.reportingRound
            && (c.firstValidRound.None? <==> c.latestRound == 0)
            && (c.firstValidRound.Some? ==>
                  && c.nextRoundToPrune <= c.firstValidRound.value <= c.latestRound
                  && DataAt(f, c.firstValidRound.value).Some?)
  {
    hide Reachable, ProvenanceOk, CarryOk, OpenOk, OracleSide;
    ReachableFeed(rt, s, id);
    var f := s.feeds[id];
    if f.config.firstValidRound.Some? {
      assert InWindow(f.config, f.config.firstValidRound.value);
    }
  }

  /** Every answer served is the seed, or the median of exactly the submissions accepted for the round it names. */
  lemma AnswerProvenance(rt: Runtime, s: State, id: FeedId, r: RoundId)
    requires RuntimeOk(rt) && Reachable(rt, s) && id in s.feeds && DataAt(s.feeds[id], r).Some?
    ensures var f := s.feeds[id]; var d := DataAt(f, r).value; var k := d.answeredInRound;
            && k <= r
            && (k == 0 ==> d.answer == 0)
            && (k > 0 ==>
                  && k in f.history.openings
                  && var values := ValuesOf(f.history.accepted, k);
                     && f.history.openings[k].countBounds.min <= |values| <= f.history.openings[k].countBounds.max
                     && values != []
                     && d.answer == Median(values, rt.valueMax))
  {
    hide Reachable;
    ReachableFeed(rt, s, id);
    var f := s.feeds[id];
    assert SoundAnswer(rt, f.history, r, f.rounds[r]);
  }

  // --- where answers come from, told from the history ---

  lemma ReachableOrigins(rt: Runtime, s: State, id: FeedId)
    requires RuntimeOk(rt) && Reachable(rt, s) && id in s.feeds
    ensures FeedInv(rt, s.feeds[id]) && OriginOk(rt, s.feeds[id])
  {
    hide Reachable, FeedInv, ClockOk, OriginOk, BooksOk;
    ReachableInv(rt, s);
    assert FeedOk(rt, s, id, s.feeds[id]);
  }

  /** The answer the history gives round `r`: the median of the last round up to `r` with an answer of its own, or the seed. */
  function AnswerFor(rt: Runtime, h: History, r: RoundId): Value {
    var values := ValuesOf(h.accepted, LastOwn(rt, h, r));
    if LastOwn(rt, h, r) == 0 || values == [] then 0 else Median(values, rt.valueMax)
  }

  /** Stored answers are a function of what was opened and accepted, and when. */
  lemma AnswersFollowHistory(rt: Runtime, s: State, id: FeedId, r: RoundId)
    requires RuntimeOk(rt) && Reachable(rt, s) && id in s.feeds && DataAt(s.feeds[id], r).Some?
    ensures var h := s.feeds[id].history; var d := DataAt(s.feeds[id], r).value;
            d.answeredInRound == LastOwn(rt, h, r) && d.answer == AnswerFor(rt, h, r)
  {
    hide Reachable, FeedInv, LastOwn, Median;
    ReachableOrigins(rt, s, id);
    AnswerProvenance(rt, s, id, r);
  }

  /** An answer is carried over exactly when its round expired below its maximum before the next one was opened. */
  lemma CarriedOverIff(rt: Runtime, s: State, id: FeedId, r: RoundId)
    requires RuntimeOk(rt) && Reachable(rt, s) && id in s.feeds && DataAt(s.feeds[id], r).Some? && r > 0
    ensures var h := s.feeds[id].history;
            && r in h.openings
            && (DataAt(s.feeds[id], r).value.answeredInRound < r <==>
                  && r + 1 in h.openings
                  && |ValuesOf(h.accepted, r)| < h.openings[r].countBounds.max
                  && Expired(rt, h.openings[r], h.openings[r + 1].openedAt))
  {
    hide Reachable, FeedInv, OriginOk, Expired, ValuesOf, WindowOk, CountersOk, OpenOk;
    ReachableOrigins(rt, s, id);
    AnswersFollowHistory(rt, s, id, r);
    var f := s.feeds[id];
    ExtentOf(rt, f);
    WithinMaximum(rt, f, r);
    ReachedMinimum(rt, f, r);
  }

  /** Which round the first valid one is: the oldest stored once something was pruned, before that the first to reach its minimum. */
  lemma FirstValidIs(rt: Runtime, s: State, id: FeedId)
    requires RuntimeOk(rt) && Reachable(rt, s) && id in s.feeds
    ensures var f := s.feeds[id]; var first := f.config.firstValidRound;
            if f.config.nextRoundToPrune > 1 then first == Some(f.config.nextRoundToPrune)
            else if first.None? then forall k: RoundId :: !Reached(f.history, k)
            else Reached(f.history, first.value) && forall k: RoundId :: k < first.value ==> !Reached(f.history, k)
  {
    hide Reachable, FeedInv, AnswersFollow, SeedBefore, ReportingOpen, LateOpen, Succeeded, TermsOk, Reached, WindowOk, OpenOk;
    ReachableOrigins(rt, s, id);
    PartsOf(rt, s.feeds[id]);
    var f := s.feeds[id];
    forall k: RoundId | f.config.firstValidRound.Some? && k < f.config.firstValidRound.value ensures BeforeValid(f.config, k) {
    }
  }

  /** The promise made for the first valid round, as far as the code keeps it. */
  ghost predicate NonDefault(d: RoundData) {
    d.answeredInRound > 0
  }

  /**
   Rounds before the first valid one have only the seed. The first valid round and the latest one have other
   data exactly when some round up to them had an answer of its own, and the first then vouches for the latest.
   */
  lemma FirstValidIsNonDefaultIff(rt: Runtime, s: State, id: FeedId, r: RoundId)
    requires RuntimeOk(rt) && Reachable(rt, s) && id in s.feeds && s.feeds[id].config.firstValidRound.Some?
    ensures var f := s.feeds[id]; var first, latest := f.config.firstValidRound.value, f.config.latestRound;
            && (r < first && DataAt(f, r).Some? ==> !NonDefault(DataAt(f, r).value))
            && DataAt(f, first).Some?
            && (NonDefault(DataAt(f, first).value) <==> exists k :: 1 <= k <= first && Own(rt, f.history, k))
            && (NonDefault(LatestData(f)) <==> exists k :: 1 <= k <= latest && Own(rt, f.history, k))
            && (NonDefault(DataAt(f, first).value) ==> NonDefault(LatestData(f)))
  {
    hide Reachable, FeedInv, Own;
    ReachableOrigins(rt, s, id);
    LatestIsServed(rt, s, id);
    var f := s.feeds[id];
    AnswersFollowHistory(rt, s, id, f.config.firstValidRound.value);
    AnswersFollowHistory(rt, s, id, f.config.latestRound);
    LastOwnIff(rt, f.history, f.config.firstValidRound.value);
    LastOwnIff(rt, f.history, f.config.latestRound);
    hide LastOwn, AnswersFollow, Succeeded, LateOpen, ReportingOpen, TermsOk;
  }

  // --- carried over answers ---

  lemma BetweenStored(f: FeedState, k: RoundId, p: RoundId, r: RoundId)
    requires CountersOk(f.config) && WindowOk(f) && 0 < k <= p < r && k in f.rounds && r in f.rounds
    ensures p in f.rounds && Answered(f.rounds[p])
  {
  }

  lemma CarriedFromPrevious(f: FeedState, p: RoundId, r: RoundId, k: RoundId)
    requires CarryOk(f) && p in f.rounds && r in f.rounds && r == p + 1 && Answered(f.rounds[r])
    requires f.rounds[r].answeredInRound == Some(k) && k < r
    ensures f.rounds[p].answeredInRound == Some(k) && f.rounds[p].answer == f.rounds[r].answer
  {
  }

  lemma {:induction false} CarriedFrom(rt: Runtime, f: FeedState, r: RoundId, k: RoundId)
    requires CountersOk(f.config) && WindowOk(f) && ProvenanceOk(rt, f) && CarryOk(f)
    requires r in f.rounds && Answered(f.rounds[r]) && f.rounds[r].answeredInRound == Some(k) && k in f.rounds && 0 < k
    ensures Answered(f.rounds[k]) && f.rounds[k].answeredInRound == Some(k) && f.rounds[k].answer == f.rounds[r].answer
    decreases r
  {
    hide CountersOk, WindowOk, ProvenanceOk, CarryOk;
    AnsweredNoLater(rt, f, r);
    if k < r {
      BetweenStored(f, k, r - 1, r);
      CarriedFromPrevious(f, r - 1, r, k);
      CarriedFrom(rt, f, r - 1, k);
    }
  }

  /** An answer carried over from a round that is still stored is that round's own answer. */
  lemma CarryOverIsConsistent(rt: Runtime, s: State, id: FeedId, r: RoundId)
    requires RuntimeOk(rt) && Reachable(rt, s) && id in s.feeds && DataAt(s.feeds[id], r).Some?
    ensures var f := s.feeds[id]; var d := DataAt(f, r).value; var k := d.answeredInRound;
            k in f.rounds ==> && DataAt(f, k).Some? && DataAt(f, k).value.answer == d.answer
                              && DataAt(f, k).value.answeredInRound == k
  {
    hide Reachable;
    ReachableFeed(rt, s, id);
    var f := s.feeds[id];
    var k := DataAt(f, r).value.answeredInRound;
    if k == 0 {
      assert SoundAnswer(rt, f.history, r, f.rounds[r]);
      assert Answered(f.rounds[0]) by {
        assert f.config.latestRound in f.rounds && Answered(f.rounds[f.config.latestRound]);
      }
      assert SoundAnswer(rt, f.history, 0, f.rounds[0]);
    } else if k in f.rounds {
      CarriedFrom(rt, f, r, k);
    }
  }

  lemma {:induction false} ValuesInBounds(f: FeedState, accepted: seq<Submission>, k: RoundId)
    requires forall i :: 0 <= i < |accepted| ==> f.config.minValue <= accepted[i].value <= f.config.maxValue
    ensures forall x :: x in ValuesOf(accepted, k) ==> f.config.minValue <= x <= f.config.maxValue
  {
    if accepted != [] {
      ValuesInBounds(f, accepted[..|accepted| - 1], k);
    }
  }

  /**
   An answer is the seed, or it respects the feed's bounds, unless the smallest admissible value is over half the
   value range and the number of submissions is even.
   */
  lemma AnswersInBoundsIff(rt: Runtime, s: State, id: FeedId, r: RoundId)
    requires RuntimeOk(rt) && Reachable(rt, s) && id in s.feeds && DataAt(s.feeds[id], r).Some?
    ensures var f := s.feeds[id]; var d := DataAt(f, r).value;
            if d.answeredInRound == 0 then d.answer == 0
            else f.config.minValue <= d.answer <= f.config.maxValue
                 <==> |ValuesOf(f.history.accepted, d.answeredInRound)| % 2 == 1 || 2 * f.config.minValue <= rt.valueMax
  {
    hide Reachable, Median;
    AnswerProvenance(rt, s, id, r);
    ReachableFeed(rt, s, id);
    var f := s.feeds[id];
    var k := DataAt(f, r).value.answeredInRound;
    if k > 0 {
      hide FeedInv, WindowOk;
      AcceptedInBounds(rt, f);
      ValuesInBounds(f, f.history.accepted, k);
      MedianInBoundsIff(ValuesOf(f.history.accepted, k), f.config.minValue, f.config.maxValue, rt.valueMax);
    }
  }

  lemma AcceptedInBounds(rt: Runtime, f: FeedState)
    requires FeedInv(rt, f)
    ensures forall i :: 0 <= i < |f.history.accepted| ==>
              f.config.minValue <= f.history.accepted[i].value <= f.config.maxValue
  {
  }

  lemma StoredArrangement(rt: Runtime, s: State, id: FeedId, r: RoundId)
    requires RuntimeOk(rt) && Reachable(rt, s) && id in s.feeds && r in s.feeds[id].details
    ensures var f := s.feeds[id]; var d := f.details[r];
            d.submissions == Arranged(ValuesOf(f.history.accepted, r), d.countBounds.min)
  {
    hide Reachable, FeedInv, AnswersFollow, SeedBefore, FirstReached, ReportingOpen, LateOpen, Succeeded, TermsOk, Arranged;
    ReachableOrigins(rt, s, id);
  }

  /** A round that still has details is open, and its stored submissions are exactly the accepted ones. */
  lemma OpenRounds(rt: Runtime, s: State, id: FeedId, r: RoundId)
    requires RuntimeOk(rt) && Reachable(rt, s) && id in s.feeds && r in s.feeds[id].details
    ensures var f := s.feeds[id]; var d := f.details[r]; var n := |d.submissions|;
            && 1 <= d.countBounds.min <= d.countBounds.max && n < d.countBounds.max
            && r in f.history.openings
            && d.countBounds == f.history.openings[r].countBounds && d.payment == f.history.openings[r].payment
            && d.timeout == f.history.openings[r].timeout && !OutdoneBySuccessor(f, r)
            && multiset(d.submissions) == multiset(ValuesOf(f.history.accepted, r))
            && d.submissions == Arranged(ValuesOf(f.history.accepted, r), d.countBounds.min)
            && (DataAt(f, r).Some? <==> n >= d.countBounds.min)
            && (n >= d.countBounds.min ==>
                  && DataAt(f, r).value.answer == Median(d.submissions, rt.valueMax)
                  && DataAt(f, r).value.answeredInRound == r)
  {
    hide Reachable, ProvenanceOk, CarryOk, OracleSide, Median, Arranged;
    StoredArrangement(rt, s, id, r);
    ReachableFeed(rt, s, id);
    var f := s.feeds[id];
    assert OpenRoundOk(rt, f, r) && InWindow(f.config, r);
    if Answered(f.rounds[r]) {
      hide WindowOk, OpenOk;
      AnswerProvenance(rt, s, id, r);
      MedianIgnoresOrder(f.details[r].submissions, ValuesOf(f.history.accepted, r), rt.valueMax);
    }
  }

  /** Stored block numbers: when the round was opened, and when its answer was last decided. */
  lemma StoredTimes(rt: Runtime, s: State, id: FeedId, r: RoundId)
    requires RuntimeOk(rt) && Reachable(rt, s) && id in s.feeds && DataAt(s.feeds[id], r).Some? && r > 0
    ensures var h := s.feeds[id].history; var d := DataAt(s.feeds[id], r).value;
            && r in h.openings && d.startedAt == h.openings[r].openedAt <= d.updatedAt <= s.now
            && (if d.answeredInRound == r then Some(d.updatedAt) == LastAt(h.accepted, r)
                else r + 1 in h.openings && d.updatedAt == h.openings[r + 1].openedAt)
  {
    hide Reachable, FeedInv, BooksOk, HistoryTimes;
    ReachableInv(rt, s);
    var f := s.feeds[id];
    assert FeedOk(rt, s, id, f);
    assert RoundTimes(f.history, r, f.rounds[r]);
    TimesInOrder(f, s.now, r);
  }

  // --- finality ---

  /** Along any run, a settled round keeps its data until it is pruned, and accepts nothing more. */
  lemma SettledRoundsAreFinal(rt: Runtime, s: State, calls: seq<Call>, id: FeedId, r: RoundId)
    requires RuntimeOk(rt) && Reachable(rt, s) && RunInRange(rt, s, calls)
    requires id in s.feeds && r in s.feeds[id].rounds && Settled(s.feeds[id], r)
    ensures var s' := Execute(rt, s, calls);
            && id in s'.feeds
            && (if r in s'.feeds[id].rounds then DataAt(s'.feeds[id], r) == DataAt(s.feeds[id], r)
                else 1 <= r < s'.feeds[id].config.nextRoundToPrune)
            && ValuesOf(s'.feeds[id].history.accepted, r) == ValuesOf(s.feeds[id].history.accepted, r)
  {
    hide Reachable, Inv, RunInRange, Execute;
    ReachableInv(rt, s);
    RunKeeps(rt, s, calls);
    var f := s.feeds[id];
    var g := Execute(rt, s, calls).feeds[id];
    assert Advances(f, g);
    assert Final(f, g, r);
    ValuesFrozen(f.history.accepted, g.history.accepted, r);
  }

  lemma {:induction false} ValuesFrozen(accepted: seq<Submission>, later: seq<Submission>, r: RoundId)
    requires accepted <= later
    requires forall i :: |accepted| <= i < |later| ==> later[i].round != r
    ensures ValuesOf(later, r) == ValuesOf(accepted, r)
    decreases |later|
  {
    if |accepted| < |later| {
      ValuesFrozen(accepted, later[..|later| - 1], r);
    } else {
      assert accepted == later;
    }
  }

  /** Every stored round has data, except a reporting round below its minimum. */
  lemma HasDataIff(rt: Runtime, s: State, id: FeedId, r: RoundId)
    requires RuntimeOk(rt) && Reachable(rt, s) && id in s.feeds && r in s.feeds[id].rounds && r > 0
    ensures var f := s.feeds[id];
            && r in f.history.openings
            && (DataAt(f, r).Some? <==>
                  || r < f.config.reportingRound
                  || f.history.openings[r].countBounds.min <= |ValuesOf(f.history.accepted, r)|)
  {
    hide Reachable, FeedInv, CountersOk, OpenOk, ValuesOf, AnswersFollow, LateOpen, Succeeded;
    ReachableOrigins(rt, s, id);
    var f := s.feeds[id];
    ExtentOf(rt, f);
    if r in f.details {
      SubmissionCount(rt, f, r);
    }
  }

  lemma LastAtFrozen(accepted: seq<Submission>, later: seq<Submission>, r: RoundId)
    requires accepted <= later && |ValuesOf(later, r)| == |ValuesOf(accepted, r)|
    ensures ValuesOf(later, r) == ValuesOf(accepted, r) && LastAt(later, r) == LastAt(accepted, r)
    decreases |later|
  {
    if |accepted| < |later| {
      var n := |later| - 1;
      ValuesGrow(accepted, later[..n], r);
      LastAtFrozen(accepted, later[..n], r);
    } else {
      assert accepted == later;
    }
  }

  lemma {:induction false} ValuesGrow(accepted: seq<Submission>, later: seq<Submission>, r: RoundId)
    requires accepted <= later
    ensures |ValuesOf(accepted, r)| <= |ValuesOf(later, r)|
    decreases |later|
  {
    if |accepted| < |later| {
      ValuesGrow(accepted, later[..|later| - 1], r);
    } else {
      assert accepted == later;
    }
  }

  /** The round reached the maximum fixed when it was opened. */
  ghost predicate Full(h: History, r: RoundId) {
    r in h.openings && |ValuesOf(h.accepted, r)| == h.openings[r].countBounds.max
  }

  lemma FullStaysFull(rt: Runtime, f: FeedState, g: FeedState, r: RoundId)
    requires FeedInv(rt, g) && HistoryExtends(f, g) && Full(f.history, r)
    ensures Full(g.history, r) && g.history.openings[r] == f.history.openings[r]
    ensures ValuesOf(g.history.accepted, r) == ValuesOf(f.history.accepted, r)
    ensures LastAt(g.history.accepted, r) == LastAt(f.history.accepted, r)
  {
    hide FeedInv, ValuesOf;
    WithinMaximum(rt, g, r);
    ValuesGrow(f.history.accepted, g.history.accepted, r);
    LastAtFrozen(f.history.accepted, g.history.accepted, r);
  }

  /** A full round has the data its history gives it. */
  lemma FullRoundData(rt: Runtime, s: State, id: FeedId, r: RoundId)
    requires RuntimeOk(rt) && Reachable(rt, s) && id in s.feeds && r in s.feeds[id].rounds && Full(s.feeds[id].history, r)
    ensures var h := s.feeds[id].history; var values := ValuesOf(h.accepted, r);
            && LastAt(h.accepted, r).Some? && values != []
            && DataAt(s.feeds[id], r)
            == Some(RoundData(h.openings[r].openedAt, Median(values, rt.valueMax), LastAt(h.accepted, r).value, r))
  {
    hide Reachable, FeedInv, OriginOk, CountersOk, WindowOk, OpenOk, ValuesOf, Expired, LastAt, Median;
    ReachableOrigins(rt, s, id);
    var f := s.feeds[id];
    ExtentOf(rt, f);
    BoundsOfOpening(rt, f, r);
    HasDataIff(rt, s, id, r);
    CarriedOverIff(rt, s, id, r);
    AnswerProvenance(rt, s, id, r);
    StoredTimes(rt, s, id, r);
  }

  lemma BoundsOfOpening(rt: Runtime, f: FeedState, r: RoundId)
    requires OriginOk(rt, f) && r in f.history.openings
    ensures BoundsOk(f.history.openings[r].countBounds)
  {
  }

  /** Along any run, a full round keeps its data until it is pruned, even as the reporting round, and accepts nothing more. */
  lemma FullRoundsAreFinal(rt: Runtime, s: State, calls: seq<Call>, id: FeedId, r: RoundId)
    requires RuntimeOk(rt) && Reachable(rt, s) && RunInRange(rt, s, calls)
    requires id in s.feeds && r in s.feeds[id].rounds && Full(s.feeds[id].history, r)
    ensures var s' := Execute(rt, s, calls);
            && id in s'.feeds
            && DataAt(s.feeds[id], r).Some? && DataAt(s.feeds[id], r).value.answeredInRound == r
            && (if r in s'.feeds[id].rounds then DataAt(s'.feeds[id], r) == DataAt(s.feeds[id], r)
                else 1 <= r < s'.feeds[id].config.nextRoundToPrune)
            && ValuesOf(s'.feeds[id].history.accepted, r) == ValuesOf(s.feeds[id].history.accepted, r)
  {
    hide Reachable, Inv, RunInRange, Execute, FeedInv, OriginOk, ValuesOf, LastAt, Median, Full;
    ReachableInv(rt, s);
    RunKeeps(rt, s, calls);
    ReachableRun(rt, s, calls);
    var s' := Execute(rt, s, calls);
    assert Advances(s.feeds[id], s'.feeds[id]);
    ReachableOrigins(rt, s', id);
    FullStaysFull(rt, s.feeds[id], s'.feeds[id], r);
    FullRoundData(rt, s, id, r);
    if r in s'.feeds[id].rounds {
      FullRoundData(rt, s', id, r);
    } else {
      DataIsAWindow(rt, s, id, r);
      DataIsAWindow(rt, s', id, r);
    }
  }

  /** Along any run the counters only grow, and the bounds of values and debt stay as they are. */
  lemma CountersNeverDecrease(rt: Runtime, s: State, calls: seq<Call>, id: FeedId)
    requires RuntimeOk(rt) && Reachable(rt, s) && RunInRange(rt, s, calls) && id in s.feeds
    ensures var s' := Execute(rt, s, calls);
            && id in s'.feeds
            && s.feeds[id].config.latestRound <= s'.feeds[id].config.latestRound
            && s.feeds[id].config.reportingRound <= s'.feeds[id].config.reportingRound
            && s.feeds[id].config.nextRoundToPrune <= s'.feeds[id].config.nextRoundToPrune
            && s.feeds[id].config.minValue == s'.feeds[id].config.minValue
            && s.feeds[id].config.maxValue == s'.feeds[id].config.maxValue
            && s.feeds[id].config.maxDebt == s'.feeds[id].config.maxDebt
  {
    hide Reachable, Inv, RunInRange, Execute;
    ReachableInv(rt, s);
    RunKeeps(rt, s, calls);
  }

  /** A timed out round that has an answer was answered in itself, which its predecessor was not. */
  lemma TimedOutAnswer(rt: Runtime, f: FeedState, now: BlockNumber)
    requires FeedInv(rt, f) && f.config.reportingRound in f.rounds && Answered(f.rounds[f.config.reportingRound])
    requires IsTimedOut(rt, f, now, f.config.reportingRound) && Previous(f.config.reportingRound) in f.rounds
    ensures var r := f.config.reportingRound;
            f.rounds[r].answeredInRound == Some(r) && f.rounds[Previous(r)].answeredInRound != Some(r) && r > 0
  {
    hide CarryOk, OracleSide;
    var r := f.config.reportingRound;
    var p := Previous(r);
    assert OpenRoundOk(rt, f, r) && InWindow(f.config, r);
    assert Answered(f.rounds[p]);
    hide WindowOk, OpenOk;
    AnsweredNoLater(rt, f, p);
  }

  /** Opening the next round replaces the answer of the current one exactly when that one timed out. */
  lemma AnswerSurvivesOpeningIff(rt: Runtime, s: State, id: FeedId, starter: Starter)
    requires RuntimeOk(rt) && Reachable(rt, s) && id in s.feeds
    requires DataAt(s.feeds[id], s.feeds[id].config.reportingRound).Some?
    requires s.feeds[id].config.reportingRound < U32_MAX
    requires InitializeRound(rt, s.feeds[id], s.now, s.feeds[id].config.reportingRound + 1, starter).Ok?
    ensures var f := s.feeds[id]; var r := f.config.reportingRound;
            var g := InitializeRound(rt, f, s.now, r + 1, starter).value;
            DataAt(g, r) == DataAt(f, r) <==> !IsTimedOut(rt, f, s.now, r)
  {
    hide Reachable, FeedInv;
    ReachableFeed(rt, s, id);
    var f := s.feeds[id];
    var r := f.config.reportingRound;
    if IsTimedOut(rt, f, s.now, r) {
      TimedOutAnswer(rt, f, s.now);
      hide IsTimedOut;
    }
  }

  // --- pruning ---

  /** The rounds kept for consumers do not exceed the pruning window. */
  ghost predicate WithinWindow(c: FeedConfig) {
    c.latestRound < c.nextRoundToPrune + c.pruningWindow
  }

  /** Setting a window prunes exactly the oldest rounds beyond it, never round 0 and never the latest round. */
  lemma PruningIsExact(rt: Runtime, s: State, id: FeedId, window: Window, r: RoundId)
    requires RuntimeOk(rt) && Reachable(rt, s) && id in s.feeds
    ensures var f := s.feeds[id]; var oldest := f.config.nextRoundToPrune; var latest := f.config.latestRound;
            var g := Step(rt, s, SetPruningWindow(f.config.owner, id, window)).state.feeds[id];
            && g.config.nextRoundToPrune == (if oldest <= latest - window then latest - window + 1 else oldest)
            && (r in g.rounds <==> r in f.rounds && !(oldest <= r < g.config.nextRoundToPrune))
            && (r in g.details <==> r in f.details && !(oldest <= r < g.config.nextRoundToPrune))
            && (r in g.rounds ==> g.rounds[r] == f.rounds[r]) && (r in g.details ==> g.details[r] == f.details[r])
            && 0 in g.rounds && latest in g.rounds && g.config.latestRound == latest && WithinWindow(g.config)
            && g.config.pruningWindow == window && g.statuses == f.statuses && g.history == f.history
  {
    hide Reachable;
    ReachableFeed(rt, s, id);
    var f := s.feeds[id];
    assert 0 in f.rounds && f.config.latestRound in f.rounds;
    hide FeedInv, WindowOk;
  }

  /** Exactly the owner can set a window, and any but zero. */
  lemma SetWindowIff(rt: Runtime, s: State, who: AccountId, id: FeedId, window: RoundId)
    ensures Step(rt, s, SetPruningWindow(who, id, window)).result.Ok?
       <==> window > 0 && id in s.feeds && s.feeds[id].config.owner == who
  {
    hide PrunedToWindow;
  }

  /** The submission brings its round, opened by it or before, to its minimum. */
  ghost predicate Answers(f: FeedState, oracle: AccountId, r: RoundId)
    requires oracle in f.statuses
  {
    if MayStart(f, oracle, r) then f.config.countBounds.min <= 1
    else r in f.details && f.details[r].countBounds.min <= |f.details[r].submissions| + 1
  }

  /**
   Pruning one round per answer keeps the window exactly when the answered round is at most one window above the
   oldest round; a submission that does not answer changes nothing.
   */
  lemma WindowIsKeptIff(rt: Runtime, f: FeedState, now: BlockNumber, oracle: AccountId, r: RoundId, value: Value)
    requires SubmitToFeed(rt, f, now, oracle, r, value).Ok?
    ensures WithinWindow(SubmitToFeed(rt, f, now, oracle, r, value).value.0.config)
       <==> if Answers(f, oracle, r) then r <= f.config.nextRoundToPrune + f.config.pruningWindow else WithinWindow(f.config)
  {
    hide EnsureValidRound, OpenIfEligible, Accept, Answers;
    WindowWhenOpening(rt, f, now, oracle, r);
    WindowWhenAccepting(rt, OpenIfEligible(rt, f, now, oracle, r).value, now, oracle, r, value);
  }

  lemma WindowWhenOpening(rt: Runtime, f: FeedState, now: BlockNumber, oracle: AccountId, r: RoundId)
    requires oracle in f.statuses && OpenIfEligible(rt, f, now, oracle, r).Ok?
    ensures var g := OpenIfEligible(rt, f, now, oracle, r).value;
            && oracle in g.statuses && g.config == f.config.(reportingRound := g.config.reportingRound)
            && (r in g.details ==>
                  (Answers(f, oracle, r) <==> g.details[r].countBounds.min <= |g.details[r].submissions| + 1))
  {
  }

  lemma WindowWhenAccepting(rt: Runtime, f: FeedState, now: BlockNumber, oracle: AccountId, r: RoundId, value: Value)
    requires oracle in f.statuses && Accept(rt, f, now, oracle, r, value).Ok?
    ensures r in f.details
    ensures WithinWindow(Accept(rt, f, now, oracle, r, value).value.config)
       <==> if f.details[r].countBounds.min <= |f.details[r].submissions| + 1
            then r <= f.config.nextRoundToPrune + f.config.pruningWindow else WithinWindow(f.config)
  {
  }
}
