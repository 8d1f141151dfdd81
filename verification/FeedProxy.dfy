/**
 The pallet's storage and the `Feed` proxy of pallet-chainlink-feed/src/lib.rs,
 updated in place. The proxy works on its own copy of the configuration and
 writes it back when dropped; everything else goes to storage at once.
 */
module FeedProxy {
  import opened Types
  import opened Medians
  import opened Feeds
  import opened Pallets

  function Put<V>(row: map<RoundId, V>, r: RoundId, v: V): map<RoundId, V> {
    row[r := v]
  }

  lemma InitializeIgnoresReporting(rt: Runtime, f: FeedState, now: BlockNumber, r: RoundId, starter: Starter)
    ensures InitializeRound(rt, f.(config := f.config.(reportingRound := r)), now, r, starter)
         == InitializeRound(rt, f, now, r, starter)
  {
  }

  /** The feed while a submission is processed: noted, with the round's details taken out of storage. */
  ghost function Taken(f: FeedState, now: BlockNumber, oracle: AccountId, status: OracleStatus, r: RoundId, value: Value): FeedState {
    f.(details := f.details - {r},
       statuses := f.statuses[oracle := status.(lastReportedRound := Some(r), latestSubmission := Some(value))],
       history := f.history.(accepted := f.history.accepted + [Submission(oracle, r, value, now)]))
  }

  /** Putting the details back last, below the maximum count, is the same as never taking them out. */
  lemma AcceptByTaking(
    rt: Runtime, f: FeedState, now: BlockNumber, oracle: AccountId, status: OracleStatus, r: RoundId, value: Value)
    requires r in f.details
    ensures var submissions := f.details[r].submissions + [value];
            var answers := |submissions| >= f.details[r].countBounds.min;
            var d := f.details[r].(submissions := if answers then Sort(submissions) else submissions);
            var taken := Taken(f, now, oracle, status, r, value);
            var spec := Accept(rt, f.(statuses := f.statuses[oracle := status]), now, oracle, r, value);
            && (spec.Ok? <==> !answers || r in f.rounds)
            && (spec.Err? ==> spec.error == RoundNotFound)
            && (spec.Ok? ==>
                  var g := if answers then PruneOldest(Answer(taken, now, r, Median(submissions, rt.valueMax))) else taken;
                  && r !in g.details
                  && spec.value == g.(details := if |d.submissions| < d.countBounds.max then g.details[r := d] else g.details))
  {
    var submissions := f.details[r].submissions + [value];
    var taken := Taken(f, now, oracle, status, r, value);
    assert r !in taken.details && taken.rounds == f.rounds;
    hide Taken, Recorded, Answer, PruneOldest, Median;
    if |submissions| < f.details[r].countBounds.min {
      TakenThenReinserted(f, now, oracle, status, r, value, submissions);
    } else if r in f.rounds {
      TakenThenReinserted(f, now, oracle, status, r, value, Sort(submissions));
      var d := f.details[r].(submissions := Sort(submissions));
      ReinsertLast(taken, now, r, Median(submissions, rt.valueMax), d);
      assert taken == taken.(details := taken.details);
    }
  }

  lemma TakenThenReinserted(
    f: FeedState, now: BlockNumber, oracle: AccountId, status: OracleStatus, r: RoundId, value: Value, submissions: seq<Value>)
    requires r in f.details
    ensures var taken := Taken(f, now, oracle, status, r, value);
            var d := f.details[r].(submissions := submissions);
            Recorded(f.(statuses := f.statuses[oracle := status]), now, oracle, r, value, submissions)
            == taken.(details := if |submissions| < d.countBounds.max then taken.details[r := d] else taken.details)
  {
  }

  lemma ReinsertLast(f: FeedState, now: BlockNumber, r: RoundId, answer: Value, d: RoundDetails)
    requires r in f.rounds && r !in f.details
    ensures var g := PruneOldest(Answer(f, now, r, answer));
            && r !in g.details
            && PruneOldest(Answer(f.(details := f.details[r := d]), now, r, answer)) == g.(details := g.details[r := d])
  {
    var g := PruneOldest(Answer(f, now, r, answer));
    var h := PruneOldest(Answer(f.(details := f.details[r := d]), now, r, answer));
    assert h.details == g.details[r := d];
    assert h.config == g.config && h.rounds == g.rounds;
  }

  /** The double maps of the pallet, one row per feed, and the history beside them. */
  datatype Rows = FeedRows(
    rounds: map<FeedId, map<RoundId, Round>>,
    details: map<FeedId, map<RoundId, RoundDetails>>,
    statuses: map<FeedId, map<AccountId, OracleStatus>>,
    requesters: map<FeedId, map<AccountId, Requester>>,
    history: map<FeedId, History>)
  {
    ghost predicate Has(id: FeedId) {
      id in rounds && id in details && id in statuses && id in requesters && id in history
    }

    /** Feed `id` as it would read if its configuration were `config`. */
    ghost function FeedWith(id: FeedId, config: FeedConfig): FeedState
      requires Has(id)
    {
      FeedState(config, rounds[id], details[id], statuses[id], requesters[id], history[id])
    }

    ghost predicate Match(feeds: map<FeedId, FeedConfig>) {
      feeds.Keys == rounds.Keys == details.Keys == statuses.Keys == requesters.Keys == history.Keys
    }

    ghost function Feeds(feeds: map<FeedId, FeedConfig>): map<FeedId, FeedState>
      requires Match(feeds)
    {
      map id | id in feeds :: FeedWith(id, feeds[id])
    }

    /** The rows of feed `id` are those of `g` in `later`, and no other feed's rows differ. */
    ghost predicate BecameAt(later: Rows, id: FeedId, g: FeedState) {
      && later.Has(id) && later.FeedWith(id, g.config) == g
      && later.rounds - {id} == rounds - {id}
      && later.details - {id} == details - {id}
      && later.statuses - {id} == statuses - {id}
      && later.requesters - {id} == requesters - {id}
      && later.history - {id} == history - {id}
    }
  }

  lemma FeedOf(rows: Rows, feeds: map<FeedId, FeedConfig>, id: FeedId)
    requires rows.Match(feeds)
    ensures id in rows.Feeds(feeds) <==> id in feeds
    ensures id in feeds ==>
              && rows.Has(id) && rows.Feeds(feeds)[id] == rows.FeedWith(id, feeds[id])
              && rows.FeedWith(id, feeds[id]).config == feeds[id]
  {
  }

  lemma RequestersOf(rows: Rows, feeds: map<FeedId, FeedConfig>, id: FeedId)
    requires rows.Match(feeds)
    ensures id in feeds <==> id in rows.requesters
    ensures id in feeds ==> rows.Has(id) && rows.FeedWith(id, feeds[id]).requesters == rows.requesters[id]
  {
  }

  lemma ElsewhereSame<V>(m: map<FeedId, V>, id: FeedId, v: V)
    ensures m[id := v] - {id} == m - {id}
  {
  }

  lemma BecameTwice(a: Rows, b: Rows, c: Rows, id: FeedId, g: FeedState, h: FeedState)
    requires a.BecameAt(b, id, g) && b.BecameAt(c, id, h)
    ensures a.BecameAt(c, id, h)
  {
  }

  /** Changing only the configuration of a feed leaves its rows alone. */
  lemma ConfigOnly(rows: Rows, id: FeedId, f: FeedState, config: FeedConfig)
    requires rows.Has(id) && f == rows.FeedWith(id, f.config)
    ensures rows.BecameAt(rows, id, f.(config := config))
  {
  }

  lemma SameKeys<V>(m: map<FeedId, V>, n: map<FeedId, V>, id: FeedId)
    requires m - {id} == n - {id} && id in m
    ensures m.Keys == n.Keys + {id}
  {
    assert m.Keys - {id} == (m - {id}).Keys && (n - {id}).Keys == n.Keys - {id};
    assert m.Keys == (m.Keys - {id}) + {id} && n.Keys + {id} == (n.Keys - {id}) + {id};
  }

  lemma SameAt<V>(m: map<FeedId, V>, n: map<FeedId, V>, id: FeedId, k: FeedId)
    requires m - {id} == n - {id} && k in m && k != id
    ensures k in n && m[k] == n[k]
  {
    assert k in m - {id};
  }

  lemma RowsStillMatch(a: Rows, b: Rows, feeds: map<FeedId, FeedConfig>, id: FeedId, g: FeedState)
    requires a.Match(feeds) && a.BecameAt(b, id, g)
    ensures b.Match(feeds[id := g.config])
  {
    SameKeys(b.rounds, a.rounds, id);
    SameKeys(b.details, a.details, id);
    SameKeys(b.statuses, a.statuses, id);
    SameKeys(b.requesters, a.requesters, id);
    SameKeys(b.history, a.history, id);
  }

  lemma OtherFeedsSame(a: Rows, b: Rows, id: FeedId, g: FeedState, k: FeedId, c: FeedConfig)
    requires a.BecameAt(b, id, g) && k != id && b.Has(k)
    ensures a.Has(k) && a.FeedWith(k, c) == b.FeedWith(k, c)
  {
    SameAt(b.rounds, a.rounds, id, k);
    SameAt(b.details, a.details, id, k);
    SameAt(b.statuses, a.statuses, id, k);
    SameAt(b.requesters, a.requesters, id, k);
    SameAt(b.history, a.history, id, k);
  }

  lemma SyncedAt(a: Rows, b: Rows, feeds: map<FeedId, FeedConfig>, id: FeedId, g: FeedState, k: FeedId)
    requires a.Match(feeds) && a.BecameAt(b, id, g) && b.Match(feeds[id := g.config]) && k in feeds[id := g.config]
    ensures k in b.Feeds(feeds[id := g.config])
    ensures b.Feeds(feeds[id := g.config])[k] == a.Feeds(feeds)[id := g][k]
  {
    if k == id {
      assert b.FeedWith(id, g.config) == g;
    } else {
      hide Rows.BecameAt;
      OtherFeedsSame(a, b, id, g, k, feeds[k]);
    }
  }

  lemma FeedsKeys(rows: Rows, feeds: map<FeedId, FeedConfig>)
    requires rows.Match(feeds)
    ensures rows.Feeds(feeds).Keys == feeds.Keys
  {
  }

  /** Once the configuration is written back too, exactly feed `id` changed. */
  lemma Synced(a: Rows, b: Rows, feeds: map<FeedId, FeedConfig>, id: FeedId, g: FeedState)
    requires a.Match(feeds) && a.BecameAt(b, id, g)
    ensures b.Match(feeds[id := g.config]) && b.Feeds(feeds[id := g.config]) == a.Feeds(feeds)[id := g]
  {
    hide Rows.BecameAt, Rows.Feeds, Rows.Match;
    RowsStillMatch(a, b, feeds, id, g);
    FeedsKeys(a, feeds);
    FeedsKeys(b, feeds[id := g.config]);
    var x, y := b.Feeds(feeds[id := g.config]), a.Feeds(feeds)[id := g];
    forall k | k in x ensures x[k] == y[k] {
      SyncedAt(a, b, feeds, id, g, k);
    }
    assert x.Keys == y.Keys;
  }

  class Storage {
    const rt: Runtime
    var palletAdmin: AccountId
    var feedCreators: set<AccountId>
    var feedCounter: FeedId
    var feeds: map<FeedId, FeedConfig>
    var rounds: map<FeedId, map<RoundId, Round>>
    var details: map<FeedId, map<RoundId, RoundDetails>>
    var statuses: map<FeedId, map<AccountId, OracleStatus>>
    var requesters: map<FeedId, map<AccountId, Requester>>
    var oracles: map<AccountId, OracleMeta>
    var free: Balance
    var reserved: Balance
    var now: BlockNumber
    ghost var history: map<FeedId, History>
    ghost var ledger: Ledger

    constructor (rt: Runtime, palletAdmin: AccountId, feedCreators: set<AccountId>, free: Balance, now: BlockNumber)
      ensures Valid() && Value() == Genesis(palletAdmin, feedCreators, free, now) && this.rt == rt
    {
      this.rt := rt;
      this.palletAdmin, this.feedCreators, this.feedCounter := palletAdmin, feedCreators, 0;
      feeds, rounds, details, statuses, requesters := map[], map[], map[], map[], map[];
      oracles, this.free, reserved, this.now := map[], free, 0, now;
      history, ledger := map[], Ledger(map[], 0);
    }

    ghost function Rows(): Rows
      reads this
    {
      FeedRows(rounds, details, statuses, requesters, history)
    }

    ghost predicate Valid()
      reads this
    {
      Rows().Match(feeds) && forall id :: id in feeds ==> id < feedCounter
    }

    /** The abstract state this storage stands for. */
    ghost function Value(): State
      requires Valid()
      reads this
    {
      State(palletAdmin, feedCreators, feedCounter, Rows().Feeds(feeds), oracles, Fund(free, reserved), now, ledger)
    }
  }

  class Feed {
    const id: FeedId
    const storage: Storage
    var config: FeedConfig

    /** `Feed::new` and `Feed::load_from`, depending on where the configuration comes from. */
    constructor (storage: Storage, id: FeedId, config: FeedConfig)
      ensures this.storage == storage && this.id == id && this.config == config
    {
      this.storage, this.id, this.config := storage, id, config;
    }

    ghost predicate Attached()
      reads this, storage
    {
      storage.Rows().Has(id)
    }

    ghost function View(): FeedState
      requires Attached()
      reads this, storage
    {
      storage.Rows().FeedWith(id, config)
    }

    /** The feed became `g`, and no other feed's rows changed. */
    twostate predicate Became(g: FeedState)
      reads this, storage
    {
      config == g.config && old(storage.Rows()).BecameAt(storage.Rows(), id, g)
    }

    // --- checks ---

    predicate IsTimedOut(r: RoundId)
      requires Attached()
      reads this, storage
      ensures IsTimedOut(r) <==> Feeds.IsTimedOut(storage.rt, View(), storage.now, r)
    {
      var startedAt := if r in storage.rounds[id] then storage.rounds[id][r].startedAt else 0;
      var timeout := if r in storage.details[id] then storage.details[id][r].timeout else 0;
      startedAt > 0 && timeout > 0 && SaturatingAdd(startedAt, timeout, storage.rt.blockMax) < storage.now
    }

    predicate WasUpdated(r: RoundId)
      requires Attached()
      reads this, storage
      ensures WasUpdated(r) <==> Feeds.WasUpdated(View(), r)
    {
      r in storage.rounds[id] && storage.rounds[id][r].updatedAt.Some?
    }

    predicate IsSupersedable(r: RoundId)
      requires Attached()
      reads this, storage
      ensures IsSupersedable(r) <==> Feeds.IsSupersedable(storage.rt, View(), storage.now, r)
    {
      r == 0 || WasUpdated(r) || IsTimedOut(r)
    }

    method EnsureValidRound(oracle: AccountId, r: RoundId) returns (res: Result<()>)
      requires Attached()
      ensures res == Feeds.EnsureValidRound(storage.rt, View(), storage.now, oracle, r)
    {
      if oracle !in storage.statuses[id] {
        return Err(NotOracle);
      }
      var o := storage.statuses[id][oracle];
      if !(o.startingRound <= r) {
        return Err(OracleNotEnabled);
      }
      if o.endingRound.Some? && o.endingRound.value < r {
        return Err(OracleDisabled);
      }
      if o.lastReportedRound.Some? && o.lastReportedRound.value >= r {
        return Err(ReportingOrder);
      }
      var isCurrent := r == config.reportingRound;
      var isNext := r == Next(config.reportingRound);
      var isPrevious := Next(r) == config.reportingRound;
      if !(isCurrent || isNext || (isPrevious && !WasUpdated(config.reportingRound))) {
        return Err(InvalidRound);
      }
      if !(r == 1 || IsSupersedable(Previous(r))) {
        return Err(NotSupersedable);
      }
      return Ok(());
    }

    // --- mutators ---

    method CloseTimedOutRound(r: RoundId) returns (res: Result<()>)
      requires Attached()
      modifies storage`rounds, storage`details
      ensures var spec := Feeds.CloseTimedOutRound(old(View()), storage.now, r);
              && res == Verdict(spec)
              && (res.Ok? ==> Became(spec.value))
    {
      var prev := Previous(r);
      if prev !in storage.rounds[id] || r !in storage.rounds[id] {
        return Err(RoundNotFound);
      }
      var timedOut := storage.rounds[id][r];
      timedOut := timedOut.(answer := storage.rounds[id][prev].answer);
      timedOut := timedOut.(answeredInRound := storage.rounds[id][prev].answeredInRound);
      timedOut := timedOut.(updatedAt := Some(storage.now));
      storage.rounds := storage.rounds[id := Put(storage.rounds[id], r, timedOut)];
      storage.details := storage.details[id := storage.details[id] - {r}];
      return Ok(());
    }

    method InitializeRound(r: RoundId, ghost starter: Starter) returns (res: Result<BlockNumber>)
      requires Attached()
      modifies this, storage`rounds, storage`details, storage`history
      ensures var spec := Feeds.InitializeRound(storage.rt, old(View()), storage.now, r, starter);
              && Verdict(res) == Verdict(spec)
              && (res.Ok? ==> res.value == storage.now && Became(spec.value))
    {
      ghost var f := View();
      config := config.(reportingRound := r);
      InitializeIgnoresReporting(storage.rt, f, storage.now, r, starter);
      hide Feeds.InitializeRound;
      res := CloseAndOpen(r, starter);
    }

    method CloseAndOpen(r: RoundId, ghost starter: Starter) returns (res: Result<BlockNumber>)
      requires Attached() && config.reportingRound == r
      modifies storage`rounds, storage`details, storage`history
      ensures var spec := Feeds.InitializeRound(storage.rt, old(View()), storage.now, r, starter);
              && Verdict(res) == Verdict(spec)
              && (res.Ok? ==> res.value == storage.now && Became(spec.value))
    {
      hide Opened, Feeds.CloseTimedOutRound;
      if IsTimedOut(Previous(r)) {
        var closed := CloseTimedOutRound(Previous(r));
        if closed.Err? {
          return Err(closed.error);
        }
      }
      StoreNewRound(r, starter);
      return Ok(storage.now);
    }

    method StoreNewRound(r: RoundId, ghost starter: Starter)
      requires Attached() && config.reportingRound == r
      modifies storage`rounds, storage`details, storage`history
      ensures Became(Opened(old(View()), storage.now, r, starter))
    {
      var blank := RoundDetails([], config.countBounds, config.payment, config.timeout);
      storage.details := storage.details[id := Put(storage.details[id], r, blank)];
      storage.rounds := storage.rounds[id := Put(storage.rounds[id], r, Round(storage.now, None, None, None))];
      ghost var h := storage.history[id];
      storage.history := storage.history[id := h.(openings := h.openings[r := OpeningTerms(config, starter, storage.now)])];
    }

    /** The mutable feed interface for other pallets. */
    method RequestNewRound(requester: AccountId) returns (res: Result<()>)
      requires Attached()
      modifies this, storage`rounds, storage`details, storage`history
      ensures var spec := RequestRound(storage.rt, old(View()), storage.now, requester);
              && res == Verdict(spec)
              && (res.Ok? ==> Became(spec.value))
    {
      if config.reportingRound == U32_MAX {
        return Err(Overflow);
      }
      if !IsSupersedable(config.reportingRound) {
        return Err(RoundNotSupersedable);
      }
      var started := InitializeRound(config.reportingRound + 1, ByRequest(requester));
      if started.Err? {
        return Err(started.error);
      }
      return Ok(());
    }

    /** Returns whether a round was pruned. */
    method PruneOldest() returns (pruned: bool)
      requires Attached()
      modifies this, storage`rounds, storage`details
      ensures Became(Feeds.PruneOldest(old(View())))
      ensures pruned <==> SaturatingSub(old(config.latestRound), old(config.nextRoundToPrune)) >= old(config.pruningWindow)
    {
      var oldest := config.nextRoundToPrune;
      if SaturatingSub(config.latestRound, oldest) >= config.pruningWindow {
        storage.rounds := storage.rounds[id := storage.rounds[id] - {oldest}];
        storage.details := storage.details[id := storage.details[id] - {oldest}];
        config := config.(nextRoundToPrune := oldest + 1);
        config := config.(firstValidRound := Some(config.nextRoundToPrune));
        pruned := true;
      } else {
        pruned := false;
      }
    }

    method UpdateFutureRounds(payment: Balance, bounds: CountBounds, restartDelay: RoundId, timeout: BlockNumber)
      returns (res: Result<()>)
      requires Attached()
      modifies this
      ensures var spec := Feeds.UpdateFutureRounds(old(View()), payment, bounds, restartDelay, timeout);
              && res == Verdict(spec)
              && (res.Ok? ==> Became(spec.value))
    {
      if bounds.max < bounds.min {
        return Err(WrongBounds);
      }
      if config.oracleCount < bounds.max {
        return Err(MaxExceededTotal);
      }
      if config.oracleCount <= restartDelay {
        return Err(DelayNotBelowCount);
      }
      if config.oracleCount > 0 && bounds.min == 0 {
        return Err(WrongBounds);
      }
      config := config.(payment := payment);
      config := config.(countBounds := bounds);
      config := config.(restartDelay := restartDelay);
      config := config.(timeout := timeout);
      return Ok(());
    }

    method AddOracles(toAdd: OracleList) returns (res: Result<()>)
      requires Attached()
      modifies this, storage`statuses, storage`oracles
      ensures var spec := Feeds.AddOracles(storage.rt, old(View()), old(storage.oracles), toAdd);
              && res == Verdict(spec)
              && (res.Ok? ==> Became(spec.value.0) && storage.oracles == spec.value.1)
    {
      var newCount := SaturatingAdd(config.oracleCount, |toAdd|, U32_MAX);
      if newCount > storage.rt.oracleCountLimit {
        return Err(OraclesLimitExceeded);
      }
      config := config.(oracleCount := newCount);
      var i := 0;
      while i < |toAdd|
        invariant 0 <= i <= |toAdd| && Attached()
        invariant config == old(config).(oracleCount := newCount)
        invariant storage.statuses - {id} == old(storage.statuses) - {id}
        invariant EnableEach(old(storage.statuses[id]), old(storage.oracles), config.reportingRound, toAdd)
               == EnableEach(storage.statuses[id], storage.oracles, config.reportingRound, toAdd[i..])
      {
        var enabled := Enable(toAdd[i].0, toAdd[i].1);
        if enabled.Err? {
          return Err(enabled.error);
        }
        assert toAdd[i..][1..] == toAdd[i + 1..];
        i := i + 1;
      }
      return Ok(());
    }

    /** The body of the loop over the oracles to add. */
    method Enable(oracle: AccountId, admin: AccountId) returns (res: Result<()>)
      requires Attached()
      modifies storage`statuses, storage`oracles
      ensures var spec := EnableOne(old(storage.statuses[id]), old(storage.oracles), config.reportingRound, oracle, admin);
              && res == Verdict(spec)
              && Attached() && storage.statuses - {id} == old(storage.statuses) - {id}
              && (res.Ok? ==> storage.statuses[id] == spec.value.0 && storage.oracles == spec.value.1)
    {
      if oracle in storage.oracles {
        if storage.oracles[oracle].admin != admin {
          return Err(OwnerCannotChangeAdmin);
        }
      } else {
        storage.oracles := storage.oracles[oracle := OracleMeta(0, admin)];
      }
      var row := storage.statuses[id];
      if oracle in row {
        if row[oracle].endingRound.None? {
          return Err(AlreadyEnabled);
        }
        row := row[oracle := row[oracle].(startingRound := config.reportingRound, endingRound := None)];
      } else {
        row := row[oracle := OracleStatus(config.reportingRound, None, None, None, None)];
      }
      storage.statuses := storage.statuses[id := row];
      return Ok(());
    }

    method DisableOracles(toDisable: AccountList) returns (res: Result<()>)
      requires Attached()
      modifies this, storage`statuses
      ensures var spec := Feeds.DisableOracles(old(View()), toDisable);
              && res == Verdict(spec)
              && (res.Ok? ==> Became(spec.value))
    {
      if |toDisable| > config.oracleCount {
        return Err(NotEnoughOracles);
      }
      config := config.(oracleCount := config.oracleCount - |toDisable|);
      var i := 0;
      while i < |toDisable|
        invariant 0 <= i <= |toDisable| && Attached()
        invariant config == old(config).(oracleCount := old(config.oracleCount) - |toDisable|)
        invariant storage.statuses - {id} == old(storage.statuses) - {id}
        invariant DisableEach(old(storage.statuses[id]), config.reportingRound, toDisable)
               == DisableEach(storage.statuses[id], config.reportingRound, toDisable[i..])
      {
        var row := storage.statuses[id];
        var d := toDisable[i];
        assert toDisable[i..][1..] == toDisable[i + 1..];
        if d !in row {
          return Err(OracleNotFound);
        }
        if row[d].endingRound.Some? {
          return Err(OracleDisabled);
        }
        storage.statuses := storage.statuses[id := row[d := row[d].(endingRound := Some(config.reportingRound))]];
        i := i + 1;
      }
      return Ok(());
    }

    // --- the stages of a submission ---

    /** Opens round `r` if the oracle is entitled to; returns its status, which is not yet stored. */
    method OpenIfEligible(oracle: AccountId, r: RoundId) returns (res: Result<OracleStatus>)
      requires Attached() && oracle in storage.statuses[id]
      modifies this, storage`rounds, storage`details, storage`history
      ensures var spec := Feeds.OpenIfEligible(storage.rt, old(View()), storage.now, oracle, r);
              && Verdict(res) == Verdict(spec)
              && (res.Ok? ==>
                    && spec.value.statuses == old(View()).statuses[oracle := res.value]
                    && Became(spec.value.(statuses := old(View()).statuses)))
    {
      var status := storage.statuses[id][oracle];
      var newRound := Next(config.reportingRound);
      var afterDelay := status.lastStartedRound.GetOr(0) + config.restartDelay;
      if afterDelay + 1 > U32_MAX {
        return Err(Overflow);
      }
      var eligible := r >= afterDelay + 1 || status.lastStartedRound.None?;
      if r == newRound && eligible {
        hide Feeds.InitializeRound;
        var started := InitializeRound(newRound, ByOracle(oracle));
        if started.Err? {
          return Err(started.error);
        }
        status := status.(lastStartedRound := Some(newRound));
      }
      return Ok(status);
    }

    /** Takes the round's details out of storage and notes the submission. */
    method Record(oracle: AccountId, status: OracleStatus, r: RoundId, value: Value) returns (d: RoundDetails)
      requires Attached() && r in storage.details[id]
      modifies storage`details, storage`statuses, storage`history
      ensures d == old(View()).details[r].(submissions := old(View()).details[r].submissions + [value])
      ensures Became(Taken(old(View()), storage.now, oracle, status, r, value))
    {
      d := storage.details[id][r];
      storage.details := storage.details[id := storage.details[id] - {r}];
      d := d.(submissions := d.submissions + [value]);
      var noted := status.(lastReportedRound := Some(r));
      noted := noted.(latestSubmission := Some(value));
      var row := storage.statuses[id];
      storage.statuses := storage.statuses[id := row[oracle := noted]];
      ghost var h := storage.history[id];
      storage.history := storage.history[id := h.(accepted := h.accepted + [Submission(oracle, r, value, storage.now)])];
    }

    /** Answers round `r` with the median, sorting the submissions in place, and prunes. */
    method Publish(r: RoundId, d: RoundDetails) returns (res: Result<RoundDetails>)
      requires Attached() && d.submissions != []
      modifies this, storage`rounds, storage`details
      ensures res.Ok? <==> r in old(View()).rounds
      ensures res.Err? ==> res.error == RoundNotFound
      ensures res.Ok? ==>
                && res.value == d.(submissions := Sort(d.submissions))
                && Became(Feeds.PruneOldest(Answer(old(View()), storage.now, r, Median(d.submissions, storage.rt.valueMax))))
    {
      var buffer := new Value[|d.submissions|](i requires 0 <= i < |d.submissions| => d.submissions[i]);
      assert buffer[..] == d.submissions;
      var answer := MedianInPlace(buffer, storage.rt.valueMax);
      var sorted := d.(submissions := buffer[..]);
      if r !in storage.rounds[id] {
        return Err(RoundNotFound);
      }
      StoreAnswer(r, answer);
      hide Answer, Feeds.PruneOldest, Median, Sort;
      var _ := PruneOldest();
      return Ok(sorted);
    }

    method StoreAnswer(r: RoundId, answer: Value)
      requires Attached() && r in storage.rounds[id]
      modifies this, storage`rounds, storage`details
      ensures Became(Answer(old(View()), storage.now, r, answer))
    {
      var data := RoundData(storage.rounds[id][r].startedAt, answer, storage.now, r);
      storage.rounds := storage.rounds[id := Put(storage.rounds[id], r, IntoRound(data))];
      config := config.(latestRound := r);
      if config.firstValidRound.None? {
        config := config.(firstValidRound := Some(r));
      }
      var prev := Previous(r);
      if prev > 0 {
        ElsewhereSame(storage.details, id, storage.details[id] - {prev});
        storage.details := storage.details[id := storage.details[id] - {prev}];
      }
    }

    /** Processes the submission; returns the details, which are still out of storage. */
    method Accept(oracle: AccountId, status: OracleStatus, r: RoundId, value: Value) returns (res: Result<RoundDetails>)
      requires Attached()
      modifies this, storage`rounds, storage`details, storage`statuses, storage`history
      ensures var f := old(View());
              var spec := Feeds.Accept(storage.rt, f.(statuses := f.statuses[oracle := status]), storage.now, oracle, r, value);
              && Verdict(res) == Verdict(spec)
              && (res.Ok? ==>
                    var d := res.value; var g := spec.value;
                    && r in f.details && d.payment == f.details[r].payment && d.countBounds == f.details[r].countBounds
                    && Attached() && Became(g.(details := View().details))
                    && g.details == if |d.submissions| < d.countBounds.max then View().details[r := d] else View().details)
    {
      if r !in storage.details[id] {
        return Err(NotAcceptingSubmissions);
      }
      ghost var f := View();
      AcceptByTaking(storage.rt, f, storage.now, oracle, status, r, value);
      hide Feeds.Accept, Taken, Answer, Feeds.PruneOldest, Median, Sort;
      var d := Record(oracle, status, r, value);
      if |d.submissions| >= d.countBounds.min {
        res := Publish(r, d);
      } else {
        res := Ok(d);
      }
    }

    /** Writes the configuration back to storage. */
    method Drop()
      modifies storage`feeds
      ensures storage.feeds == old(storage.feeds)[id := config]
    {
      storage.feeds := storage.feeds[id := config];
    }
  }
}
