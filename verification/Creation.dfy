/** What a new feed is, in terms of the call that created it. */
module Creation {
  import opened Types
  import opened Feeds
  import opened FeedSteps
  import opened Pallets
  import opened Runs
  import opened Oracles
  import opened Terms

  ghost predicate AdminsAgree(oracles: map<AccountId, OracleMeta>, list: seq<(AccountId, AccountId)>) {
    forall i :: 0 <= i < |list| ==> (list[i].0 in oracles ==> oracles[list[i].0].admin == list[i].1)
  }

  ghost function CreationTerms(c: Call): RoundTerms
    requires c.CreateFeed?
  {
    RoundTerms(c.payment, CountBounds(c.minSubmissions, |c.newOracles|), c.restartDelay, c.timeout)
  }

  /** A feed can be created exactly under these conditions. */
  lemma CreationIff(rt: Runtime, s: State, c: Call)
    requires c.CreateFeed?
    ensures Step(rt, s, c).result.Ok?
       <==> && c.who in s.feedCreators && c.descriptionLength <= rt.stringLimit && c.pruningWindow != Some(0)
            && s.feedCounter < rt.feedLimit && s.feedCounter < rt.feedIdMax
            && |c.newOracles| <= rt.oracleCountLimit
            && Distinct(AccountsOf(c.newOracles)) && AdminsAgree(s.oracles, c.newOracles)
            && Feasible(CreationTerms(c), |c.newOracles|)
  {
    hide Step, EnableEach, Distinct;
    StepOf(rt, s, c);
    EnableEachIff(map[], s.oracles, 0, c.newOracles);
    forall i | 0 <= i < |c.newOracles|
      ensures CanEnable(map[], s.oracles, c.newOracles[i])
         <==> (c.newOracles[i].0 in s.oracles ==> s.oracles[c.newOracles[i].0].admin == c.newOracles[i].1)
    {
    }
  }

  /** The new feed is configured as the call says, has the listed oracles, and of rounds only the seed. */
  lemma CreatedFeed(rt: Runtime, s: State, c: Call, o: AccountId)
    requires c.CreateFeed? && Step(rt, s, c).result.Ok?
    ensures var s' := Step(rt, s, c).state; var id := s.feedCounter;
            && s'.feedCounter == id + 1 && id in s'.feeds && s'.feeds - {id} == s.feeds - {id}
            && var f := s'.feeds[id];
               && f.config.owner == c.who && f.config.minValue == c.minValue && f.config.maxValue == c.maxValue
               && TermsOf(f.config) == CreationTerms(c)
               && f.config.pruningWindow == (if c.pruningWindow.Some? then c.pruningWindow.value else U32_MAX)
               && f.config.maxDebt == c.maxDebt && f.config.debt == 0
               && f.config.reportingRound == 0 && f.config.latestRound == 0 && f.config.firstValidRound.None?
               && f.config.nextRoundToPrune == 1 && f.config.oracleCount == |c.newOracles|
               && f.rounds.Keys == {0} && DataAt(f, 0) == Some(RoundData(s.now, 0, s.now, 0)) && f.details == map[]
               && f.requesters == map[] && f.history == History(map[], [])
               && (o in f.statuses <==> o in AccountsOf(c.newOracles))
               && (o in f.statuses ==> f.statuses[o] == OracleStatus(0, None, None, None, None))
    ensures Step(rt, s, c).state.fund == s.fund
  {
    hide Step, EnableEach;
    StepOf(rt, s, c);
    AddedStatuses(map[], s.oracles, 0, c.newOracles, o);
  }

  /** Unknown oracles are registered with the admins of the call and no balance; known ones stay as they are. */
  lemma CreatedOracles(rt: Runtime, s: State, c: Call, i: nat, o: AccountId)
    requires c.CreateFeed? && Step(rt, s, c).result.Ok? && i < |c.newOracles|
    ensures var later := Step(rt, s, c).state.oracles; var listed := c.newOracles[i];
            && listed.0 in later && later[listed.0].admin == listed.1
            && (listed.0 !in s.oracles ==> later[listed.0].withdrawable == 0)
            && (o in s.oracles ==> o in later && later[o] == s.oracles[o])
            && (o in later ==> o in s.oracles || o in AccountsOf(c.newOracles))
  {
    hide Step, EnableEach;
    StepOf(rt, s, c);
    AddedBalances(map[], s.oracles, 0, c.newOracles, i, o);
  }

  /** From creation until terms are set, all rounds of a feed are opened on the terms of its creation. */
  lemma CreationTermsApply(rt: Runtime, s: State, c: Call, calls: seq<Call>, r: RoundId)
    requires RuntimeOk(rt) && Reachable(rt, s) && c.CreateFeed? && Step(rt, s, c).result.Ok?
    requires RunInRange(rt, Step(rt, s, c).state, calls) && TermsStand(rt, Step(rt, s, c).state, calls, s.feedCounter)
    ensures var s' := Execute(rt, Step(rt, s, c).state, calls); var id := s.feedCounter;
            && id in s'.feeds
            && (r in s'.feeds[id].history.openings ==> OpenedOn(s'.feeds[id].history.openings[r]) == CreationTerms(c))
  {
    hide Reachable, RunInRange, Execute, Step, TermsStand;
    CreatedFeed(rt, s, c, 0);
    ReachableThen(rt, s, c);
    RunFromTerms(rt, Step(rt, s, c).state, calls, s.feedCounter, r);
  }
}
