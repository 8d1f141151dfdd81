/** Submitting and starting rounds: one voice per oracle, fair starts, and somebody can always start. */
module Oracles {
  import opened Types
  import opened Feeds
  import opened FeedInvariant
  import opened FeedSteps
  import opened Origins
  import opened Ledgers
  import opened Pallets
  import opened Runs
  import opened Consumers

  // --- one voice per oracle ---

  /** The oracles whose submissions were accepted for round `r`, in order of acceptance. */
  function VoicesOf(accepted: seq<Submission>, r: RoundId): seq<AccountId> {
    if accepted == [] then []
    else
      var n := |accepted| - 1;
      var earlier := VoicesOf(accepted[..n], r);
      if accepted[n].round == r then earlier + [accepted[n].oracle] else earlier
  }

  ghost predicate Distinct(s: seq<AccountId>) {
    forall i, j :: 0 <= i < j < |s| ==> s[i] != s[j]
  }

  lemma {:induction false} VoicesAreAccepted(accepted: seq<Submission>, r: RoundId, o: AccountId)
    requires o in VoicesOf(accepted, r)
    ensures exists i :: 0 <= i < |accepted| && accepted[i].oracle == o && accepted[i].round == r
  {
    var n := |accepted| - 1;
    if !(accepted[n].round == r && accepted[n].oracle == o) {
      VoicesAreAccepted(accepted[..n], r, o);
      var i :| 0 <= i < n && accepted[..n][i].oracle == o && accepted[..n][i].round == r;
      assert accepted[i].oracle == o;
    }
  }

  lemma {:induction false} VoicesDistinct(accepted: seq<Submission>, r: RoundId)
    requires OneVoice(accepted)
    ensures Distinct(VoicesOf(accepted, r)) && |VoicesOf(accepted, r)| == |ValuesOf(accepted, r)|
  {
    if accepted != [] {
      var n := |accepted| - 1;
      VoicesDistinct(accepted[..n], r);
      if accepted[n].round == r && accepted[n].oracle in VoicesOf(accepted[..n], r) {
        VoicesAreAccepted(accepted[..n], r, accepted[n].oracle);
      }
    }
  }

  /** A round's submissions come from distinct oracles and stay within the maximum fixed when it was opened. */
  lemma OneVoicePerOracle(rt: Runtime, s: State, id: FeedId, r: RoundId)
    requires RuntimeOk(rt) && Reachable(rt, s) && id in s.feeds && r in s.feeds[id].history.openings
    ensures var h := s.feeds[id].history;
            && OneVoice(h.accepted)
            && Distinct(VoicesOf(h.accepted, r))
            && |VoicesOf(h.accepted, r)| == |ValuesOf(h.accepted, r)| <= h.openings[r].countBounds.max
  {
    hide Reachable;
    ReachableFeed(rt, s, id);
    VoicesDistinct(s.feeds[id].history.accepted, r);
  }

  /** An oracle's status names its last accepted submission: the round, and the value. */
  lemma StatusNamesLastSubmission(rt: Runtime, s: State, id: FeedId, o: AccountId)
    requires RuntimeOk(rt) && Reachable(rt, s) && id in s.feeds && o in s.feeds[id].statuses
    ensures var status := s.feeds[id].statuses[o]; var accepted := s.feeds[id].history.accepted;
            && (status.lastReportedRound.None? <==> forall i :: 0 <= i < |accepted| ==> accepted[i].oracle != o)
            && (status.lastReportedRound.Some? ==>
                  && status.latestSubmission.Some?
                  && Reported(accepted, o, status.lastReportedRound.value, status.latestSubmission.value)
                  && forall i :: 0 <= i < |accepted| && accepted[i].oracle == o ==>
                       accepted[i].round <= status.lastReportedRound.value)
  {
    hide Reachable, RoundSide, CountsOk, OpeningsOk, OracleCountOk;
    ReachableFeed(rt, s, id);
    var f := s.feeds[id];
    assert StatusOk(f, o, f.statuses[o]);
    forall i | 0 <= i < |f.history.accepted| && f.history.accepted[i].oracle == o
      ensures f.statuses[o].lastReportedRound.Some? && f.history.accepted[i].round <= f.statuses[o].lastReportedRound.value
    {
      assert SubmissionOk(f, f.history.accepted[i]);
    }
  }

  // --- adding and disabling oracles ---

  function AccountsOf(list: seq<(AccountId, AccountId)>): seq<AccountId> {
    seq(|list|, i requires 0 <= i < |list| => list[i].0)
  }

  ghost predicate CanEnable(
    statuses: map<AccountId, OracleStatus>, oracles: map<AccountId, OracleMeta>, entry: (AccountId, AccountId))
  {
    && (entry.0 in oracles ==> oracles[entry.0].admin == entry.1)
    && (entry.0 in statuses ==> !Enabled(statuses[entry.0]))
  }

  ghost predicate AllCanBeEnabled(
    statuses: map<AccountId, OracleStatus>, oracles: map<AccountId, OracleMeta>, toAdd: seq<(AccountId, AccountId)>)
  {
    forall i :: 0 <= i < |toAdd| ==> CanEnable(statuses, oracles, toAdd[i])
  }

  lemma DistinctTail(s: seq<AccountId>)
    requires s != []
    ensures Distinct(s) <==> s[0] !in s[1..] && Distinct(s[1..])
  {
  }

  lemma EnableOneShifts(
    statuses: map<AccountId, OracleStatus>, oracles: map<AccountId, OracleMeta>,
    reporting: RoundId, head: (AccountId, AccountId), rest: seq<(AccountId, AccountId)>)
    requires CanEnable(statuses, oracles, head)
    ensures var (s, o) := EnableOne(statuses, oracles, reporting, head.0, head.1).value;
            AllCanBeEnabled(s, o, rest) <==> AllCanBeEnabled(statuses, oracles, rest) && head.0 !in AccountsOf(rest)
  {
    var (s, o) := EnableOne(statuses, oracles, reporting, head.0, head.1).value;
    forall i | 0 <= i < |rest|
      ensures CanEnable(s, o, rest[i]) <==> CanEnable(statuses, oracles, rest[i]) && rest[i].0 != head.0
    {
    }
    assert head.0 !in AccountsOf(rest) <==> forall i :: 0 <= i < |rest| ==> rest[i].0 != head.0 by {
      assert forall i :: 0 <= i < |rest| ==> AccountsOf(rest)[i] == rest[i].0;
    }
  }

  /** Adding succeeds exactly on distinct accounts, none of them enabled, each with the admin on record. */
  lemma {:induction false} EnableEachIff(
    statuses: map<AccountId, OracleStatus>, oracles: map<AccountId, OracleMeta>,
    reporting: RoundId, toAdd: seq<(AccountId, AccountId)>)
    ensures EnableEach(statuses, oracles, reporting, toAdd).Ok?
       <==> Distinct(AccountsOf(toAdd)) && AllCanBeEnabled(statuses, oracles, toAdd)
    decreases |toAdd|
  {
    if toAdd != [] {
      var head, rest := toAdd[0], toAdd[1..];
      assert AccountsOf(toAdd)[1..] == AccountsOf(rest);
      DistinctTail(AccountsOf(toAdd));
      assert AllCanBeEnabled(statuses, oracles, toAdd)
        <==> CanEnable(statuses, oracles, head) && AllCanBeEnabled(statuses, oracles, rest) by {
        assert forall i :: 0 <= i < |rest| ==> rest[i] == toAdd[i + 1];
        assert forall i :: 0 < i < |toAdd| ==> toAdd[i] == rest[i - 1];
      }
      if CanEnable(statuses, oracles, head) {
        var (s, o) := EnableOne(statuses, oracles, reporting, head.0, head.1).value;
        EnableOneShifts(statuses, oracles, reporting, head, rest);
        EnableEachIff(s, o, reporting, rest);
      }
    }
  }

  ghost predicate AllEnabled(statuses: map<AccountId, OracleStatus>, toDisable: seq<AccountId>) {
    forall i :: 0 <= i < |toDisable| ==> toDisable[i] in EnabledOracles(statuses)
  }

  /** Disabling succeeds exactly on distinct enabled oracles. */
  lemma {:induction false} DisableEachIff(
    statuses: map<AccountId, OracleStatus>, reporting: RoundId, toDisable: seq<AccountId>)
    ensures DisableEach(statuses, reporting, toDisable).Ok? <==> Distinct(toDisable) && AllEnabled(statuses, toDisable)
    decreases |toDisable|
  {
    if toDisable != [] {
      var head, rest := toDisable[0], toDisable[1..];
      DistinctTail(toDisable);
      assert AllEnabled(statuses, toDisable) <==> head in EnabledOracles(statuses) && AllEnabled(statuses, rest) by {
        assert forall i :: 0 <= i < |rest| ==> rest[i] == toDisable[i + 1];
        assert forall i :: 0 < i < |toDisable| ==> toDisable[i] == rest[i - 1];
      }
      if head in EnabledOracles(statuses) {
        var s := DisableOne(statuses, reporting, head).value;
        assert EnabledOracles(s) == EnabledOracles(statuses) - {head};
        assert AllEnabled(s, rest) <==> AllEnabled(statuses, rest) && head !in rest;
        DisableEachIff(s, reporting, rest);
      }
    }
  }

  /** Disabling ends the listed oracles' terms with the reporting round and changes nothing else. */
  lemma {:induction false} DisabledStatuses(
    statuses: map<AccountId, OracleStatus>, reporting: RoundId, toDisable: seq<AccountId>, o: AccountId)
    requires DisableEach(statuses, reporting, toDisable).Ok?
    ensures var later := DisableEach(statuses, reporting, toDisable).value;
            && (o in later <==> o in statuses)
            && (o in statuses ==> later[o] == if o in toDisable then statuses[o].(endingRound := Some(reporting)) else statuses[o])
    decreases |toDisable|
  {
    if toDisable != [] {
      var head, rest := toDisable[0], toDisable[1..];
      assert toDisable == [head] + rest;
      DisableEachIff(statuses, reporting, toDisable);
      DistinctTail(toDisable);
      DisabledStatuses(DisableOne(statuses, reporting, head).value, reporting, rest, o);
    }
  }

  /** The term of an added oracle starts with the reporting round; what it did before is kept. */
  function TermFrom(statuses: map<AccountId, OracleStatus>, reporting: RoundId, o: AccountId): OracleStatus {
    var before := if o in statuses then statuses[o] else OracleStatus(0, None, None, None, None);
    OracleStatus(reporting, None, before.lastReportedRound, before.lastStartedRound, before.latestSubmission)
  }

  /** Adding starts the listed oracles' terms with the reporting round and changes no other status. */
  lemma {:induction false} AddedStatuses(
    statuses: map<AccountId, OracleStatus>, oracles: map<AccountId, OracleMeta>,
    reporting: RoundId, toAdd: seq<(AccountId, AccountId)>, o: AccountId)
    requires EnableEach(statuses, oracles, reporting, toAdd).Ok?
    ensures var later := EnableEach(statuses, oracles, reporting, toAdd).value.0;
            if o in AccountsOf(toAdd) then o in later && later[o] == TermFrom(statuses, reporting, o)
            else (o in later <==> o in statuses) && (o in statuses ==> later[o] == statuses[o])
    decreases |toAdd|
  {
    if toAdd != [] {
      var head, rest := toAdd[0], toAdd[1..];
      assert AccountsOf(toAdd) == [head.0] + AccountsOf(rest);
      EnableEachIff(statuses, oracles, reporting, toAdd);
      assert AccountsOf(toAdd)[1..] == AccountsOf(rest);
      DistinctTail(AccountsOf(toAdd));
      var (s, m) := EnableOne(statuses, oracles, reporting, head.0, head.1).value;
      AddedStatuses(s, m, reporting, rest, o);
    }
  }

  /** Adding registers unknown oracles with the listed admin and no balance, and leaves all others alone. */
  lemma {:induction false} AddedBalances(
    statuses: map<AccountId, OracleStatus>, oracles: map<AccountId, OracleMeta>,
    reporting: RoundId, toAdd: seq<(AccountId, AccountId)>, i: nat, o: AccountId)
    requires EnableEach(statuses, oracles, reporting, toAdd).Ok? && i < |toAdd|
    ensures var later := EnableEach(statuses, oracles, reporting, toAdd).value.1;
            && toAdd[i].0 in later && later[toAdd[i].0].admin == toAdd[i].1
            && (toAdd[i].0 !in oracles ==> later[toAdd[i].0].withdrawable == 0)
            && (o in oracles ==> o in later && later[o] == oracles[o])
            && (o in later ==> o in oracles || o in AccountsOf(toAdd))
    decreases |toAdd|
  {
    var head, rest := toAdd[0], toAdd[1..];
    assert AccountsOf(toAdd) == [head.0] + AccountsOf(rest);
    var (s, m) := EnableOne(statuses, oracles, reporting, head.0, head.1).value;
    if rest != [] {
      if i > 0 {
        EnableEachIff(statuses, oracles, reporting, toAdd);
        assert AccountsOf(toAdd)[i] != AccountsOf(toAdd)[0];
        AddedBalances(s, m, reporting, rest, i - 1, o);
      } else {
        AddedBalances(s, m, reporting, rest, 0, head.0);
        AddedBalances(s, m, reporting, rest, 0, o);
      }
    }
  }

  ghost function Members(s: seq<AccountId>): set<AccountId> {
    set o | o in s
  }

  lemma {:induction false} EnabledAfterAdding(
    statuses: map<AccountId, OracleStatus>, oracles: map<AccountId, OracleMeta>,
    reporting: RoundId, toAdd: seq<(AccountId, AccountId)>)
    requires EnableEach(statuses, oracles, reporting, toAdd).Ok?
    ensures EnabledOracles(EnableEach(statuses, oracles, reporting, toAdd).value.0)
         == EnabledOracles(statuses) + Members(AccountsOf(toAdd))
    decreases |toAdd|
  {
    if toAdd != [] {
      var (s, o) := EnableOne(statuses, oracles, reporting, toAdd[0].0, toAdd[0].1).value;
      EnabledAfterAdding(s, o, reporting, toAdd[1..]);
      assert AccountsOf(toAdd) == [toAdd[0].0] + AccountsOf(toAdd[1..]);
      assert EnabledOracles(s) == EnabledOracles(statuses) + {toAdd[0].0};
    }
  }

  lemma {:induction false} EnabledAfterDisabling(
    statuses: map<AccountId, OracleStatus>, reporting: RoundId, toDisable: seq<AccountId>)
    requires DisableEach(statuses, reporting, toDisable).Ok?
    ensures EnabledOracles(DisableEach(statuses, reporting, toDisable).value)
         == EnabledOracles(statuses) - Members(toDisable)
    decreases |toDisable|
  {
    if toDisable != [] {
      var s := DisableOne(statuses, reporting, toDisable[0]).value;
      EnabledAfterDisabling(s, reporting, toDisable[1..]);
      assert toDisable == [toDisable[0]] + toDisable[1..];
      assert EnabledOracles(s) == EnabledOracles(statuses) - {toDisable[0]};
    }
  }

  /** Changing oracles removes exactly the disabled ones and then adds exactly the new ones. */
  lemma OraclesAfterChange(rt: Runtime, s: State, c: Call)
    requires c.ChangeOracles? && ChangeOraclesStep(rt, s, c).Ok?
    ensures EnabledOracles(ChangeOraclesStep(rt, s, c).value.feeds[c.id].statuses)
         == (EnabledOracles(s.feeds[c.id].statuses) - Members(c.toDisable)) + Members(AccountsOf(c.toAdd))
  {
    var f := s.feeds[c.id];
    var reduced := DisableOracles(f, c.toDisable).value;
    EnabledAfterDisabling(f.statuses, f.config.reportingRound, c.toDisable);
    EnabledAfterAdding(reduced.statuses, s.oracles, f.config.reportingRound, c.toAdd);
  }

  ghost predicate AddableAfter(
    f: FeedState, oracles: map<AccountId, OracleMeta>, toDisable: seq<AccountId>, toAdd: seq<(AccountId, AccountId)>)
  {
    forall i :: 0 <= i < |toAdd| ==>
      && (toAdd[i].0 in oracles ==> oracles[toAdd[i].0].admin == toAdd[i].1)
      && (toAdd[i].0 in EnabledOracles(f.statuses) ==> toAdd[i].0 in toDisable)
  }

  lemma AddableIff(f: FeedState, oracles: map<AccountId, OracleMeta>, toDisable: seq<AccountId>, toAdd: seq<(AccountId, AccountId)>)
    requires DisableEach(f.statuses, f.config.reportingRound, toDisable).Ok?
    ensures AllCanBeEnabled(DisableEach(f.statuses, f.config.reportingRound, toDisable).value, oracles, toAdd)
       <==> AddableAfter(f, oracles, toDisable, toAdd)
  {
    var later := DisableEach(f.statuses, f.config.reportingRound, toDisable).value;
    hide DisableEach;
    forall i | 0 <= i < |toAdd|
      ensures CanEnable(later, oracles, toAdd[i])
         <==> && (toAdd[i].0 in oracles ==> oracles[toAdd[i].0].admin == toAdd[i].1)
              && (toAdd[i].0 in EnabledOracles(f.statuses) ==> toAdd[i].0 in toDisable)
    {
      DisabledStatuses(f.statuses, f.config.reportingRound, toDisable, toAdd[i].0);
    }
  }

  lemma CountBoundsDistinct(s: seq<AccountId>, enabled: set<AccountId>)
    requires Distinct(s) && forall i :: 0 <= i < |s| ==> s[i] in enabled
    ensures |s| <= |enabled|
  {
    if s != [] {
      DistinctTail(s);
      assert forall i :: 0 <= i < |s[1..]| ==> s[1..][i] == s[i + 1];
      CountBoundsDistinct(s[1..], enabled - {s[0]});
    }
  }

  /** The owner can change the oracles exactly like this: disable enabled ones, and add ones that are then not enabled, up to the limit. */
  lemma ChangeOraclesIff(rt: Runtime, s: State, c: Call)
    requires RuntimeOk(rt) && Reachable(rt, s) && c.ChangeOracles? && c.id in s.feeds
    ensures var f := s.feeds[c.id];
            Step(rt, s, c).result.Ok?
            <==> && f.config.owner == c.who
                 && Distinct(c.toDisable) && AllEnabled(f.statuses, c.toDisable)
                 && Distinct(AccountsOf(c.toAdd)) && AddableAfter(f, s.oracles, c.toDisable, c.toAdd)
                 && f.config.oracleCount - |c.toDisable| + |c.toAdd| <= rt.oracleCountLimit
  {
    hide Reachable, Step, EnableEach, DisableEach, Distinct, AddableAfter, AllCanBeEnabled, AllEnabled;
    var f := s.feeds[c.id];
    StepOf(rt, s, c);
    OracleCountIsExact(rt, s, c.id);
    DisableEachIff(f.statuses, f.config.reportingRound, c.toDisable);
    if Distinct(c.toDisable) && AllEnabled(f.statuses, c.toDisable) {
      EnabledFit(f.statuses, c.toDisable);
      var reduced := DisableEach(f.statuses, f.config.reportingRound, c.toDisable).value;
      EnableEachIff(reduced, s.oracles, f.config.reportingRound, c.toAdd);
      AddableIff(f, s.oracles, c.toDisable, c.toAdd);
    }
  }

  lemma EnabledFit(statuses: map<AccountId, OracleStatus>, toDisable: seq<AccountId>)
    requires Distinct(toDisable) && AllEnabled(statuses, toDisable)
    ensures |toDisable| <= |EnabledOracles(statuses)|
  {
    CountBoundsDistinct(toDisable, EnabledOracles(statuses));
  }

  /** Oracles added to a feed are registered with the admins of the call; no balance and no other record changes. */
  lemma BalancesAfterChange(rt: Runtime, s: State, c: Call, i: nat, o: AccountId)
    requires c.ChangeOracles? && ChangeOraclesStep(rt, s, c).Ok? && i < |c.toAdd|
    ensures var later := ChangeOraclesStep(rt, s, c).value.oracles; var listed := c.toAdd[i];
            && listed.0 in later && later[listed.0].admin == listed.1
            && (listed.0 !in s.oracles ==> later[listed.0].withdrawable == 0)
            && (o in s.oracles ==> o in later && later[o] == s.oracles[o])
            && (o in later ==> o in s.oracles || o in AccountsOf(c.toAdd))
  {
    hide EnableEach, DisableEach;
    var f := s.feeds[c.id];
    var reduced := DisableOracles(f, c.toDisable).value;
    AddedBalances(reduced.statuses, s.oracles, f.config.reportingRound, c.toAdd, i, o);
  }

  // --- fair starts ---

  /** No two oracles share a last start, and two starts by one oracle are more than the delay apart. */
  lemma StartsAreFair(rt: Runtime, s: State, id: FeedId)
    requires RuntimeOk(rt) && Reachable(rt, s) && id in s.feeds
    ensures var f := s.feeds[id];
            && (forall o, p :: o in f.statuses && p in f.statuses && o != p && f.statuses[o].lastStartedRound.Some? ==>
                  f.statuses[o].lastStartedRound != f.statuses[p].lastStartedRound)
            && FairStarts(f.history.openings)
  {
    hide Reachable;
    ReachableFeed(rt, s, id);
    var f := s.feeds[id];
    hide RoundSide, SubmissionsOk, CountsOk, OracleCountOk;
    forall o, p | o in f.statuses && p in f.statuses && o != p && f.statuses[o].lastStartedRound.Some?
      ensures f.statuses[o].lastStartedRound != f.statuses[p].lastStartedRound
    {
      assert StatusOk(f, o, f.statuses[o]) && StatusOk(f, p, f.statuses[p]);
    }
  }

  /** The oracle count is the number of oracles without an ending round. */
  lemma OracleCountIsExact(rt: Runtime, s: State, id: FeedId)
    requires RuntimeOk(rt) && Reachable(rt, s) && id in s.feeds
    ensures s.feeds[id].config.oracleCount == |EnabledOracles(s.feeds[id].statuses)| <= rt.oracleCountLimit
  {
    hide Reachable;
    ReachableFeed(rt, s, id);
  }

  // --- somebody can start the next round ---

  /** The oracles that started one of the last `k` rounds up to `r`. */
  ghost function RecentStarters(openings: map<RoundId, Opening>, r: RoundId, k: nat): set<AccountId>
    decreases k
  {
    if k == 0 || r == 0 then {}
    else
      RecentStarters(openings, r - 1, k - 1)
      + (if r in openings && openings[r].starter.ByOracle? then {openings[r].starter.oracle} else {})
  }

  lemma {:induction false} FewRecentStarters(openings: map<RoundId, Opening>, r: RoundId, k: nat)
    ensures |RecentStarters(openings, r, k)| <= k
    decreases k
  {
    if k > 0 && r > 0 {
      FewRecentStarters(openings, r - 1, k - 1);
    }
  }

  lemma {:induction false} RecentStarterIff(openings: map<RoundId, Opening>, r: RoundId, k: nat, o: AccountId)
    requires forall p :: p in openings ==> 1 <= p
    ensures o in RecentStarters(openings, r, k)
       <==> exists p :: p in openings && r < p + k && p <= r && openings[p].starter == ByOracle(o)
    decreases k
  {
    if k > 0 && r > 0 {
      RecentStarterIff(openings, r - 1, k - 1, o);
      if o in RecentStarters(openings, r - 1, k - 1) {
        var p :| p in openings && r - 1 < p + (k - 1) && p <= r - 1 && openings[p].starter == ByOracle(o);
        assert p in openings && r < p + k;
      }
    }
  }

  lemma {:induction false} SubsetIsSmaller(a: set<AccountId>, b: set<AccountId>)
    requires a <= b
    ensures |a| <= |b|
  {
    if a != {} {
      var x :| x in a;
      SubsetIsSmaller(a - {x}, b - {x});
    }
  }

  ghost predicate CanStartNext(rt: Runtime, f: FeedState, now: BlockNumber, oracle: AccountId)
    requires f.config.reportingRound < U32_MAX
  {
    && EnsureValidRound(rt, f, now, oracle, f.config.reportingRound + 1).Ok?
    && MayStart(f, oracle, f.config.reportingRound + 1)
  }

  /** An enabled oracle can start the next round exactly when it started none of the last `restartDelay` rounds. */
  lemma CanStartIff(rt: Runtime, f: FeedState, now: BlockNumber, o: AccountId)
    requires OpeningsOk(f) && StatusesOk(f) && f.config.reportingRound < U32_MAX && f.config.restartDelay < U32_MAX
    requires IsSupersedable(rt, f, now, f.config.reportingRound)
    requires o in EnabledOracles(f.statuses)
    ensures CanStartNext(rt, f, now, o)
       <==> o !in RecentStarters(f.history.openings, f.config.reportingRound, f.config.restartDelay)
  {
    var r := f.config.reportingRound;
    var d: int := f.config.restartDelay;
    var openings := f.history.openings;
    RecentStarterIff(openings, r, d, o);
    assert StatusOk(f, o, f.statuses[o]);
    var last := f.statuses[o].lastStartedRound;
    assert CanStartNext(rt, f, now, o) <==> last.None? || last.value + d <= r;
    if last.Some? && r < last.value + d {
      assert last.value in openings && openings[last.value].starter == ByOracle(o);
    }
    if p :| p in openings && r < p + d && p <= r && openings[p].starter == ByOracle(o) {
      assert StartedAtLeast(f.statuses, openings[p].starter.oracle, p);
    }
  }

  /** With fewer blocked rounds than enabled oracles, the pigeonhole principle leaves somebody free to start. */
  lemma SomebodyIsFree(rt: Runtime, f: FeedState)
    requires OracleCountOk(rt, f) && f.config.restartDelay < f.config.oracleCount
    ensures exists o :: o in EnabledOracles(f.statuses)
              && o !in RecentStarters(f.history.openings, f.config.reportingRound, f.config.restartDelay)
  {
    var enabled := EnabledOracles(f.statuses);
    var recent := RecentStarters(f.history.openings, f.config.reportingRound, f.config.restartDelay);
    FewRecentStarters(f.history.openings, f.config.reportingRound, f.config.restartDelay);
    if enabled <= recent {
      SubsetIsSmaller(enabled, recent);
    } else {
      var o :| o in enabled && o !in recent;
    }
  }

  /** In every reachable state the next round of a supersedable one has an enabled oracle entitled to start it. */
  lemma SomebodyIsEligible(rt: Runtime, s: State, id: FeedId)
    requires RuntimeOk(rt) && Reachable(rt, s) && id in s.feeds
    requires var f := s.feeds[id];
             && IsSupersedable(rt, f, s.now, f.config.reportingRound)
             && f.config.restartDelay < f.config.oracleCount && f.config.reportingRound < U32_MAX
    ensures exists o :: o in EnabledOracles(s.feeds[id].statuses) && CanStartNext(rt, s.feeds[id], s.now, o)
  {
    hide Reachable, RoundSide, SubmissionsOk, CountsOk, OpeningsOk, StatusesOk, OracleCountOk, IsSupersedable, CanStartNext;
    ReachableFeed(rt, s, id);
    var f := s.feeds[id];
    SomebodyIsFree(rt, f);
    var o :| o in EnabledOracles(f.statuses)
      && o !in RecentStarters(f.history.openings, f.config.reportingRound, f.config.restartDelay);
    CanStartIff(rt, f, s.now, o);
  }

  /** Nobody can start the next round exactly when every enabled oracle started one of the last `restartDelay` rounds. */
  lemma NobodyCanStartIff(rt: Runtime, s: State, id: FeedId)
    requires RuntimeOk(rt) && Reachable(rt, s) && id in s.feeds
    requires IsSupersedable(rt, s.feeds[id], s.now, s.feeds[id].config.reportingRound)
    requires s.feeds[id].config.reportingRound < U32_MAX
    ensures var f := s.feeds[id];
            (forall o :: o in EnabledOracles(f.statuses) ==> !CanStartNext(rt, f, s.now, o))
            <==> EnabledOracles(f.statuses) <= RecentStarters(f.history.openings, f.config.reportingRound, f.config.restartDelay)
  {
    hide Reachable, RoundSide, SubmissionsOk, CountsOk, OpeningsOk, StatusesOk, OracleCountOk, IsSupersedable, CanStartNext,
      TraceOk, BooksOk;
    ReachableInv(rt, s);
    var f := s.feeds[id];
    assert FeedOk(rt, s, id, f);
    forall o | o in EnabledOracles(f.statuses)
      ensures CanStartNext(rt, f, s.now, o)
         <==> o !in RecentStarters(f.history.openings, f.config.reportingRound, f.config.restartDelay)
    {
      CanStartIff(rt, f, s.now, o);
    }
  }
}
