/** The rate limit of requesters binds: what a request records, and how far apart requests are. */
module Requesters {
  import opened Types
  import opened Feeds
  import opened FeedSteps
  import opened Pallets
  import opened Runs
  import opened Stalls

  lemma RequestKeepsRequesters(rt: Runtime, f: FeedState, now: BlockNumber, who: AccountId)
    requires RequestRound(rt, f, now, who).Ok?
    ensures var g := RequestRound(rt, f, now, who).value;
            g.requesters == f.requesters && g.config.reportingRound == f.config.reportingRound + 1
  {
  }

  /** A successful request opens the next round and records it as the requester's last one; nobody else's record changes. */
  lemma RequestIsRecorded(rt: Runtime, s: State, id: FeedId, who: AccountId)
    requires Step(rt, s, RequestNewRound(who, id)).result.Ok?
    ensures var s' := Step(rt, s, RequestNewRound(who, id)).state;
            && id in s.feeds && id in s'.feeds
            && var f, g := s.feeds[id], s'.feeds[id];
               && g.config.reportingRound == f.config.reportingRound + 1
               && who in f.requesters && who in g.requesters
               && g.requesters[who] == Requester(f.requesters[who].delay, Some(g.config.reportingRound))
               && (f.requesters[who].lastStartedRound.Some? ==>
                     f.requesters[who].lastStartedRound.value + f.requesters[who].delay < g.config.reportingRound)
               && g.requesters - {who} == f.requesters - {who}
  {
    hide RequestRound, Step;
    StepOf(rt, s, RequestNewRound(who, id));
    var f := s.feeds[id];
    RequestKeepsRequesters(rt, TakeTurn(f, who).value, s.now, who);
  }

  /** A requester that asks before its delay has passed is told so, and nothing happens. */
  lemma EarlyRequestIsRefused(rt: Runtime, s: State, id: FeedId, who: AccountId)
    requires id in s.feeds && who in s.feeds[id].requesters && s.feeds[id].config.reportingRound < U32_MAX
    requires var q := s.feeds[id].requesters[who];
             q.lastStartedRound.Some? && s.feeds[id].config.reportingRound < q.lastStartedRound.value + q.delay <= U32_MAX
    ensures Step(rt, s, RequestNewRound(who, id)) == Outcome(s, Err(CannotRequestRoundYet))
  {
    hide RequestRound, Step;
    StepOf(rt, s, RequestNewRound(who, id));
  }

  /** The owner sets a requester's delay and keeps its record, or removes both; no other requester is affected. */
  lemma PermissionsChange(rt: Runtime, s: State, c: Call)
    requires (c.SetRequester? || c.RemoveRequester?) && c.id in s.feeds
    ensures var o := Step(rt, s, c); var f := s.feeds[c.id];
            && (o.result.Ok? <==> f.config.owner == c.who && (c.RemoveRequester? ==> c.requester in f.requesters))
            && c.id in o.state.feeds
            && (o.result.Ok? ==>
                  var later := o.state.feeds[c.id].requesters;
                  && later - {c.requester} == f.requesters - {c.requester}
                  && (c.requester in later <==> c.SetRequester?)
                  && (c.SetRequester? ==>
                        && later[c.requester].delay == c.delay
                        && later[c.requester].lastStartedRound
                           == if c.requester in f.requesters then f.requesters[c.requester].lastStartedRound else None))
  {
  }

  // --- runs ---

  /** The requester's last round is `p` or later. */
  ghost predicate StartedSince(f: FeedState, who: AccountId, p: RoundId) {
    && who in f.requesters && f.requesters[who].lastStartedRound.Some?
    && p <= f.requesters[who].lastStartedRound.value
  }

  lemma OpenKeepsRequesters(rt: Runtime, f: FeedState, now: BlockNumber, oracle: AccountId, r: RoundId)
    requires oracle in f.statuses && OpenIfEligible(rt, f, now, oracle, r).Ok?
    ensures OpenIfEligible(rt, f, now, oracle, r).value.requesters == f.requesters
  {
  }

  lemma AcceptKeepsRequesters(rt: Runtime, f: FeedState, now: BlockNumber, oracle: AccountId, r: RoundId, value: Value)
    requires oracle in f.statuses && Accept(rt, f, now, oracle, r, value).Ok?
    ensures Accept(rt, f, now, oracle, r, value).value.requesters == f.requesters
  {
  }

  lemma SubmitKeepsRequesters(rt: Runtime, f: FeedState, now: BlockNumber, oracle: AccountId, r: RoundId, value: Value)
    requires SubmitToFeed(rt, f, now, oracle, r, value).Ok?
    ensures SubmitToFeed(rt, f, now, oracle, r, value).value.0.requesters == f.requesters
  {
    hide EnsureValidRound, OpenIfEligible, Accept;
    OpenKeepsTerms(rt, f, now, oracle, r);
    OpenKeepsRequesters(rt, f, now, oracle, r);
    AcceptKeepsRequesters(rt, OpenIfEligible(rt, f, now, oracle, r).value, now, oracle, r, value);
  }

  lemma SubmitStepKeepsRequesters(rt: Runtime, s: State, c: Call, id: FeedId)
    requires c.Submit? && id in s.feeds
    ensures id in Step(rt, s, c).state.feeds && Step(rt, s, c).state.feeds[id].requesters == s.feeds[id].requesters
  {
    hide SubmitToFeed;
    if c.id == id && SubmitToFeed(rt, s.feeds[id], s.now, c.who, c.round, c.value).Ok? {
      SubmitKeepsRequesters(rt, s.feeds[id], s.now, c.who, c.round, c.value);
    }
  }

  lemma RequestStepKeepsStarts(rt: Runtime, s: State, c: Call, id: FeedId, who: AccountId, p: RoundId)
    requires (c.RequestNewRound? || c.RequestVia?) && id in s.feeds && StartedSince(s.feeds[id], who, p)
    ensures id in Step(rt, s, c).state.feeds && StartedSince(Step(rt, s, c).state.feeds[id], who, p)
  {
    hide RequestRound;
    if c.id == id {
      if c.RequestVia? && RequestRound(rt, s.feeds[id], s.now, c.who).Ok? {
        RequestKeepsRequesters(rt, s.feeds[id], s.now, c.who);
      } else if c.RequestNewRound? && Step(rt, s, c).result.Ok? {
        RequestIsRecorded(rt, s, id, c.who);
        assert c == RequestNewRound(c.who, id);
        hide Step;
        if c.who != who {
          assert who in s.feeds[id].requesters - {c.who};
        }
      }
    }
  }

  /** A requester's record is lost only with its permission. */
  lemma StepKeepsStarts(rt: Runtime, s: State, c: Call, id: FeedId, who: AccountId, p: RoundId)
    requires id in s.feeds && id < s.feedCounter && StartedSince(s.feeds[id], who, p)
    ensures var s' := Step(rt, s, c).state;
            id in s'.feeds && (who in s'.feeds[id].requesters ==> StartedSince(s'.feeds[id], who, p))
  {
    if c.Submit? {
      SubmitStepKeepsRequesters(rt, s, c, id);
    } else if c.RequestNewRound? || c.RequestVia? {
      RequestStepKeepsStarts(rt, s, c, id, who, p);
    } else {
      hide AddOracles, DisableOracles;
    }
  }

  /** In every state of the run the requester has permission with this delay. */
  ghost predicate KeepsDelay(rt: Runtime, s: State, calls: seq<Call>, id: FeedId, who: AccountId, delay: RoundId)
    decreases |calls|
  {
    && id in s.feeds && who in s.feeds[id].requesters && s.feeds[id].requesters[who].delay == delay
    && (calls != [] ==> KeepsDelay(rt, Step(rt, s, calls[0]).state, calls[1..], id, who, delay))
  }

  lemma {:induction false} RunKeepsStarts(
    rt: Runtime, s: State, calls: seq<Call>, id: FeedId, who: AccountId, delay: RoundId, p: RoundId)
    requires Inv(rt, s) && RunInRange(rt, s, calls) && KeepsDelay(rt, s, calls, id, who, delay)
    requires StartedSince(s.feeds[id], who, p)
    ensures var s' := Execute(rt, s, calls);
            id in s'.feeds && StartedSince(s'.feeds[id], who, p) && s'.feeds[id].requesters[who].delay == delay
    decreases |calls|
  {
    hide Inv, Evolves, Step, InRange;
    if calls != [] {
      InvFeed(rt, s, id);
      StepKeeps(rt, s, calls[0]);
      StepKeepsStarts(rt, s, calls[0], id, who, p);
      RunKeepsStarts(rt, Step(rt, s, calls[0]).state, calls[1..], id, who, delay, p);
    }
  }

  /**
   Any two rounds a requester starts while it keeps its permission and its delay are more than the delay apart,
   whatever happens in between.
   */
  lemma RequestsAreSpaced(rt: Runtime, s: State, calls: seq<Call>, id: FeedId, who: AccountId)
    requires RuntimeOk(rt) && Reachable(rt, s) && Step(rt, s, RequestNewRound(who, id)).result.Ok?
    requires id in s.feeds && who in s.feeds[id].requesters
    requires var t := Step(rt, s, RequestNewRound(who, id)).state;
             && RunInRange(rt, t, calls) && KeepsDelay(rt, t, calls, id, who, s.feeds[id].requesters[who].delay)
             && Step(rt, Execute(rt, t, calls), RequestNewRound(who, id)).result.Ok?
    ensures var first := Step(rt, s, RequestNewRound(who, id)).state;
            var second := Step(rt, Execute(rt, first, calls), RequestNewRound(who, id)).state;
            && id in first.feeds && id in second.feeds
            && first.feeds[id].config.reportingRound + s.feeds[id].requesters[who].delay
               < second.feeds[id].config.reportingRound
  {
    hide Reachable, Inv, RunInRange, Execute, Step, KeepsDelay;
    var c := RequestNewRound(who, id);
    var first := Step(rt, s, c).state;
    RequestIsRecorded(rt, s, id, who);
    ReachableThen(rt, s, c);
    ReachableInv(rt, first);
    RunKeepsStarts(rt, first, calls, id, who, s.feeds[id].requesters[who].delay, first.feeds[id].config.reportingRound);
    RequestIsRecorded(rt, Execute(rt, first, calls), id, who);
  }
}
