/**
 The extrinsics, performed on storage. A transactional one saves storage first,
 lets the proxy write whatever it writes, and puts everything back on an error.
 */
module Extrinsics {
  import opened Types
  import opened Feeds
  import opened Pallets
  import opened FeedProxy

  // --- transactions ---

  /** Everything a transactional extrinsic may write. */
  datatype Saved = Saved(
    feedCounter: FeedId,
    feeds: map<FeedId, FeedConfig>,
    rounds: map<FeedId, map<RoundId, Round>>,
    details: map<FeedId, map<RoundId, RoundDetails>>,
    statuses: map<FeedId, map<AccountId, OracleStatus>>,
    requesters: map<FeedId, map<AccountId, Requester>>,
    oracles: map<AccountId, OracleMeta>,
    free: Balance,
    reserved: Balance)

  function Save(st: Storage): Saved
    reads st
  {
    Saved(st.feedCounter, st.feeds, st.rounds, st.details, st.statuses, st.requesters, st.oracles, st.free, st.reserved)
  }

  method Rollback(st: Storage, saved: Saved, ghost history: map<FeedId, History>)
    modifies st`feedCounter, st`feeds, st`rounds, st`details, st`statuses, st`requesters, st`oracles, st`free, st`reserved,
             st`history
    ensures Save(st) == saved && st.history == history
  {
    st.feedCounter, st.feeds, st.rounds, st.details := saved.feedCounter, saved.feeds, saved.rounds, saved.details;
    st.statuses, st.requesters, st.oracles := saved.statuses, saved.requesters, saved.oracles;
    st.free, st.reserved, st.history := saved.free, saved.reserved, history;
  }

  // --- submitting ---

  /** Reserves the payment for the oracle or adds it to the feed's debt. */
  method FundSubmission(st: Storage, feed: Feed, payment: Balance, refused: bool) returns (res: Result<()>)
    requires feed.storage == st
    modifies st`free, st`reserved, feed
    ensures var spec := FundPayment(st.rt, Fund(old(st.free), old(st.reserved)), old(feed.config), payment, refused);
            && res == Verdict(spec)
            && (res.Ok? ==> Fund(st.free, st.reserved) == spec.value.0 && feed.config == spec.value.1)
  {
    if refused || st.free < payment {
      var newDebt := feed.config.debt + payment;
      if newDebt > st.rt.balanceMax {
        return Err(Overflow);
      }
      if feed.config.maxDebt.Some? && newDebt > feed.config.maxDebt.value {
        return Err(MaxDebtReached);
      }
      feed.config := feed.config.(debt := newDebt);
    } else {
      st.free := st.free - payment;
      st.reserved := st.reserved + payment;
    }
    return Ok(());
  }

  method CreditOracle(st: Storage, oracle: AccountId, payment: Balance) returns (res: Result<()>)
    modifies st`oracles
    ensures var spec := Credit(st.rt, old(st.oracles), oracle, payment);
            && res == Verdict(spec)
            && (res.Ok? ==> st.oracles == spec.value)
  {
    if oracle !in st.oracles {
      return Err(OracleNotFound);
    }
    var meta := st.oracles[oracle];
    if meta.withdrawable + payment > st.rt.balanceMax {
      return Err(Overflow);
    }
    st.oracles := st.oracles[oracle := meta.(withdrawable := meta.withdrawable + payment)];
    return Ok(());
  }

  /** The feed's part of a submission; the round's details are returned and still out of storage. */
  method ProcessSubmission(feed: Feed, oracle: AccountId, r: RoundId, value: Value) returns (res: Result<RoundDetails>)
    requires feed.Attached()
    modifies feed, feed.storage`rounds, feed.storage`details, feed.storage`statuses, feed.storage`history
    ensures var spec := SubmitToFeed(feed.storage.rt, old(feed.View()), feed.storage.now, oracle, r, value);
            && Verdict(res) == Verdict(spec)
            && (res.Ok? ==>
                  var d := res.value; var g := spec.value.0;
                  && d.payment == spec.value.1
                  && feed.Attached() && feed.Became(g.(details := feed.View().details))
                  && g.details == if |d.submissions| < d.countBounds.max then feed.View().details[r := d] else feed.View().details)
  {
    hide Feeds.EnsureValidRound, Feeds.OpenIfEligible, Feeds.Accept;
    if oracle !in feed.storage.statuses[feed.id] {
      return Err(NotOracle);
    }
    var valid := feed.EnsureValidRound(oracle, r);
    if valid.Err? {
      return Err(valid.error);
    }
    if value < feed.config.minValue {
      return Err(SubmissionBelowMinimum);
    }
    if value > feed.config.maxValue {
      return Err(SubmissionAboveMaximum);
    }
    ghost var f := feed.View();
    var status := feed.OpenIfEligible(oracle, r);
    if status.Err? {
      return Err(status.error);
    }
    ghost var begun := Feeds.OpenIfEligible(feed.storage.rt, f, feed.storage.now, oracle, r).value;
    assert begun == feed.View().(statuses := feed.View().statuses[oracle := status.value]);
    res := feed.Accept(oracle, status.value, r, value);
  }

  /** The closure of `submit` between loading the proxy and dropping it. */
  method SubmitThrough(st: Storage, feed: Feed, who: AccountId, r: RoundId, value: Value, refused: bool)
    returns (res: Result<()>)
    requires feed.storage == st && feed.Attached()
    modifies feed, st`rounds, st`details, st`statuses, st`history, st`free, st`reserved, st`oracles
    ensures var spec := SubmitWith(st.rt, old(feed.View()), st.now, old(st.oracles), Fund(old(st.free), old(st.reserved)), who, r, value, refused);
            && res == Verdict(spec)
            && (res.Ok? ==> feed.Became(spec.value.0) && st.oracles == spec.value.1 && Fund(st.free, st.reserved) == spec.value.2)
  {
    hide SubmitToFeed, FundPayment, Credit;
    var processed := ProcessSubmission(feed, who, r, value);
    if processed.Err? {
      return Err(processed.error);
    }
    var d := processed.value;
    var funded := FundSubmission(st, feed, d.payment, refused);
    if funded.Err? {
      return Err(funded.error);
    }
    var credited := CreditOracle(st, who, d.payment);
    if credited.Err? {
      return Err(credited.error);
    }
    if |d.submissions| < d.countBounds.max {
      st.details := st.details[feed.id := Put(st.details[feed.id], r, d)];
    }
    return Ok(());
  }

  /** `SubmitStep` on the one feed it concerns. */
  ghost function SubmitWith(
    rt: Runtime, f: FeedState, now: BlockNumber, oracles: map<AccountId, OracleMeta>, fund: Fund,
    who: AccountId, r: RoundId, value: Value, refused: bool
  ): Result<(FeedState, map<AccountId, OracleMeta>, Fund)> {
    var (g, payment) :- SubmitToFeed(rt, f, now, who, r, value);
    var (fund', config) :- FundPayment(rt, fund, g.config, payment, refused);
    var oracles' :- Credit(rt, oracles, who, payment);
    Ok((g.(config := config), oracles', fund'))
  }

  lemma SubmitConcernsOneFeed(rt: Runtime, s: State, c: Call)
    requires c.Submit?
    ensures c.id !in s.feeds ==> SubmitStep(rt, s, c) == Err(FeedNotFound)
    ensures c.id in s.feeds ==>
            var spec := SubmitWith(rt, s.feeds[c.id], s.now, s.oracles, s.fund, c.who, c.round, c.value, c.refused);
            && Verdict(SubmitStep(rt, s, c)) == Verdict(spec)
            && (spec.Ok? ==>
                  SubmitStep(rt, s, c).value
                  == WithFeed(s, c.id, spec.value.0).(oracles := spec.value.1, fund := spec.value.2))
  {
  }

  method SubmitInTransaction(st: Storage, who: AccountId, id: FeedId, r: RoundId, value: Value, refused: bool)
    returns (res: Result<()>)
    requires st.Valid()
    modifies st`feeds, st`rounds, st`details, st`statuses, st`history, st`free, st`reserved, st`oracles
    ensures var spec := SubmitStep(st.rt, old(st.Value()), Call.Submit(who, id, r, value, refused));
            && res == Verdict(spec)
            && (res.Ok? ==> st.Valid() && st.Value() == spec.value)
  {
    hide SubmitWith, SubmitStep, Rows.BecameAt, Rows.FeedWith, Rows.Feeds, Rows.Match;
    FeedOf(st.Rows(), st.feeds, id);
    SubmitConcernsOneFeed(st.rt, st.Value(), Call.Submit(who, id, r, value, refused));
    if id !in st.feeds {
      return Err(FeedNotFound);
    }
    ghost var before, configs, f := st.Rows(), st.feeds, st.Rows().FeedWith(id, st.feeds[id]);
    ghost var spec := SubmitWith(st.rt, f, st.now, st.oracles, Fund(st.free, st.reserved), who, r, value, refused);
    var feed := new Feed(st, id, st.feeds[id]);
    res := SubmitThrough(st, feed, who, r, value, refused);
    feed.Drop();
    if res.Ok? {
      Synced(before, st.Rows(), configs, id, spec.value.0);
    }
  }

  /** Submit a value: all of it happens, or nothing. */
  method Submit(st: Storage, who: AccountId, id: FeedId, r: RoundId, value: Value, refused: bool) returns (res: Result<()>)
    requires st.Valid()
    modifies st
    ensures st.Valid()
    ensures Outcome(st.Value(), res) == Step(st.rt, old(st.Value()), Call.Submit(who, id, r, value, refused))
  {
    hide Step, SubmitStep;
    StepOf(st.rt, st.Value(), Call.Submit(who, id, r, value, refused));
    var saved := Save(st);
    ghost var history := st.history;
    res := SubmitInTransaction(st, who, id, r, value, refused);
    if res.Err? {
      Rollback(st, saved, history);
    }
  }

  // --- oracles and round terms ---

  method ChangeThrough(feed: Feed, who: AccountId, toDisable: AccountList, toAdd: OracleList) returns (res: Result<()>)
    requires feed.Attached()
    modifies feed, feed.storage`statuses, feed.storage`oracles
    ensures var spec := ChangeWith(feed.storage.rt, old(feed.View()), old(feed.storage.oracles), who, toDisable, toAdd);
            && res == Verdict(spec)
            && (res.Ok? ==> feed.Became(spec.value.0) && feed.storage.oracles == spec.value.1)
  {
    hide Feeds.DisableOracles, Feeds.AddOracles;
    if feed.config.owner != who {
      return Err(NotFeedOwner);
    }
    res := feed.DisableOracles(toDisable);
    if res.Err? {
      return;
    }
    res := feed.AddOracles(toAdd);
  }

  /** `ChangeOraclesStep` on the one feed it concerns. */
  ghost function ChangeWith(
    rt: Runtime, f: FeedState, oracles: map<AccountId, OracleMeta>, who: AccountId, toDisable: AccountList, toAdd: OracleList
  ): Result<(FeedState, map<AccountId, OracleMeta>)> {
    var _ :- Ensure(f.config.owner == who, NotFeedOwner);
    var reduced :- DisableOracles(f, toDisable);
    AddOracles(rt, reduced, oracles, toAdd)
  }

  method ChangeOraclesInTransaction(st: Storage, who: AccountId, id: FeedId, toDisable: AccountList, toAdd: OracleList)
    returns (res: Result<()>)
    requires st.Valid()
    modifies st`feeds, st`statuses, st`oracles
    ensures var spec := ChangeOraclesStep(st.rt, old(st.Value()), Call.ChangeOracles(who, id, toDisable, toAdd));
            && res == Verdict(spec)
            && (res.Ok? ==> st.Valid() && st.Value() == spec.value)
  {
    hide Rows.BecameAt, Rows.FeedWith, Rows.Feeds, Rows.Match, Feeds.DisableOracles, Feeds.AddOracles;
    FeedOf(st.Rows(), st.feeds, id);
    if id !in st.feeds {
      return Err(FeedNotFound);
    }
    ghost var before, configs, f := st.Rows(), st.feeds, st.Rows().FeedWith(id, st.feeds[id]);
    ghost var spec := ChangeWith(st.rt, f, st.oracles, who, toDisable, toAdd);
    var feed := new Feed(st, id, st.feeds[id]);
    res := ChangeThrough(feed, who, toDisable, toAdd);
    feed.Drop();
    if res.Ok? {
      Synced(before, st.Rows(), configs, id, spec.value.0);
    }
  }

  /** Disable, then add oracles: all of it happens, or nothing. */
  method ChangeOracles(st: Storage, who: AccountId, id: FeedId, toDisable: AccountList, toAdd: OracleList)
    returns (res: Result<()>)
    requires st.Valid()
    modifies st
    ensures st.Valid()
    ensures Outcome(st.Value(), res) == Step(st.rt, old(st.Value()), Call.ChangeOracles(who, id, toDisable, toAdd))
  {
    hide Step, ChangeOraclesStep;
    StepOf(st.rt, st.Value(), Call.ChangeOracles(who, id, toDisable, toAdd));
    var saved := Save(st);
    ghost var history := st.history;
    res := ChangeOraclesInTransaction(st, who, id, toDisable, toAdd);
    if res.Err? {
      Rollback(st, saved, history);
    }
  }

  method UpdateFutureRounds(
    st: Storage, who: AccountId, id: FeedId, payment: Balance, bounds: CountBounds, restartDelay: RoundId, timeout: BlockNumber
  ) returns (res: Result<()>)
    requires st.Valid()
    modifies st
    ensures st.Valid()
    ensures Outcome(st.Value(), res)
         == Step(st.rt, old(st.Value()), Call.UpdateRounds(who, id, payment, bounds, restartDelay, timeout))
  {
    hide Step, UpdateRoundsStep;
    StepOf(st.rt, st.Value(), Call.UpdateRounds(who, id, payment, bounds, restartDelay, timeout));
    var saved := Save(st);
    ghost var history := st.history;
    res := UpdateInTransaction(st, who, id, payment, bounds, restartDelay, timeout);
    if res.Err? {
      Rollback(st, saved, history);
    }
  }

  method UpdateInTransaction(
    st: Storage, who: AccountId, id: FeedId, payment: Balance, bounds: CountBounds, restartDelay: RoundId, timeout: BlockNumber
  ) returns (res: Result<()>)
    requires st.Valid()
    modifies st`feeds
    ensures var spec := UpdateRoundsStep(old(st.Value()), Call.UpdateRounds(who, id, payment, bounds, restartDelay, timeout));
            && res == Verdict(spec)
            && (res.Ok? ==> st.Valid() && st.Value() == spec.value)
  {
    hide Rows.BecameAt, Rows.FeedWith, Rows.Feeds, Rows.Match, Feeds.UpdateFutureRounds;
    FeedOf(st.Rows(), st.feeds, id);
    if id !in st.feeds {
      return Err(FeedNotFound);
    }
    ghost var before, configs, f := st.Rows(), st.feeds, st.Rows().FeedWith(id, st.feeds[id]);
    ghost var spec := Feeds.UpdateFutureRounds(f, payment, bounds, restartDelay, timeout);
    var feed := new Feed(st, id, st.feeds[id]);
    if feed.config.owner != who {
      res := Err(NotFeedOwner);
    } else {
      res := feed.UpdateFutureRounds(payment, bounds, restartDelay, timeout);
    }
    feed.Drop();
    if res.Ok? {
      Synced(before, st.Rows(), configs, id, spec.value);
    }
  }

  // --- pruning ---

  /** One pruning step does not move the point where pruning stops. */
  lemma PruningConverges(f: FeedState)
    ensures PrunedToWindow(PruneOldest(f)) == PrunedToWindow(f)
    ensures SaturatingSub(f.config.latestRound, f.config.nextRoundToPrune) < f.config.pruningWindow ==> PrunedToWindow(f) == f
  {
  }

  /** Prunes until the window is respected. */
  method PruneThrough(feed: Feed, window: Window)
    requires feed.Attached()
    modifies feed, feed.storage`rounds, feed.storage`details
    ensures var f := old(feed.View());
            feed.Became(PrunedToWindow(f.(config := f.config.(pruningWindow := window))))
  {
    feed.config := feed.config.(pruningWindow := window);
    ghost var f, before := feed.View(), feed.storage.Rows();
    hide Feeds.PruneOldest, PrunedToWindow;
    var more := true;
    while more
      invariant feed.Attached() && before.BecameAt(feed.storage.Rows(), feed.id, feed.View())
      invariant PrunedToWindow(feed.View()) == PrunedToWindow(f)
      invariant !more ==> PrunedToWindow(feed.View()) == feed.View()
      decreases SaturatingSub(feed.config.latestRound, feed.config.nextRoundToPrune), more
    {
      PruningConverges(feed.View());
      PruningProgresses(feed.View());
      more := feed.PruneOldest();
    }
  }

  lemma PruningProgresses(f: FeedState)
    ensures var c := f.config; var d := PruneOldest(f).config;
            if SaturatingSub(c.latestRound, c.nextRoundToPrune) >= c.pruningWindow
            then SaturatingSub(d.latestRound, d.nextRoundToPrune) < SaturatingSub(c.latestRound, c.nextRoundToPrune)
            else PruneOldest(f) == f
  {
  }

  method SetPruningWindow(st: Storage, who: AccountId, id: FeedId, window: RoundId) returns (res: Result<()>)
    requires st.Valid()
    modifies st
    ensures st.Valid()
    ensures Outcome(st.Value(), res) == Step(st.rt, old(st.Value()), Call.SetPruningWindow(who, id, window))
  {
    hide Step, Rows.BecameAt, Rows.FeedWith, Rows.Feeds, Rows.Match, PrunedToWindow;
    StepOf(st.rt, st.Value(), Call.SetPruningWindow(who, id, window));
    FeedOf(st.Rows(), st.feeds, id);
    if window == 0 {
      return Err(CannotPruneRoundZero);
    }
    if id !in st.feeds {
      return Err(FeedNotFound);
    }
    ghost var before, configs, f := st.Rows(), st.feeds, st.Rows().FeedWith(id, st.feeds[id]);
    ghost var g := f;
    var feed := new Feed(st, id, st.feeds[id]);
    if feed.config.owner != who {
      res := Err(NotFeedOwner);
      ConfigOnly(before, id, f, f.config);
      assert f.(config := f.config) == f;
    } else {
      g := PrunedToWindow(f.(config := f.config.(pruningWindow := window)));
      PruneThrough(feed, window);
      res := Ok(());
    }
    feed.Drop();
    Synced(before, st.Rows(), configs, id, g);
  }

  // --- requesting a round ---

  method RequestThrough(st: Storage, feed: Feed, who: AccountId, requester: Requester) returns (res: Result<()>)
    requires feed.storage == st && feed.Attached() && who in st.requesters[feed.id] && requester == st.requesters[feed.id][who]
    modifies feed, st`rounds, st`details, st`history, st`requesters
    ensures var spec := RequestWith(st.rt, old(feed.View()), st.now, who);
            && res == Verdict(spec)
            && (res.Ok? ==> feed.Became(spec.value))
  {
    hide RequestRound;
    if feed.config.reportingRound == U32_MAX {
      return Err(Overflow);
    }
    var newRound: RoundId := feed.config.reportingRound + 1;
    var nextAllowed := requester.lastStartedRound.GetOr(0) + requester.delay;
    if nextAllowed > U32_MAX {
      return Err(Overflow);
    }
    if requester.lastStartedRound.Some? && newRound <= nextAllowed {
      return Err(CannotRequestRoundYet);
    }
    var row := st.requesters[feed.id];
    st.requesters := st.requesters[feed.id := row[who := requester.(lastStartedRound := Some(newRound))]];
    res := feed.RequestNewRound(who);
  }

  ghost function RequestWith(rt: Runtime, f: FeedState, now: BlockNumber, who: AccountId): Result<FeedState>
    requires who in f.requesters
  {
    var noted :- TakeTurn(f, who);
    RequestRound(rt, noted, now, who)
  }

  lemma RequestConcernsOneFeed(rt: Runtime, s: State, who: AccountId, id: FeedId)
    ensures id !in s.feeds || who !in s.feeds[id].requesters ==>
              RequestNewRoundStep(rt, s, Call.RequestNewRound(who, id)) == Err(NotAuthorizedRequester)
    ensures id in s.feeds && who in s.feeds[id].requesters ==>
              var spec := RequestWith(rt, s.feeds[id], s.now, who);
              && Verdict(RequestNewRoundStep(rt, s, Call.RequestNewRound(who, id))) == Verdict(spec)
              && (spec.Ok? ==> RequestNewRoundStep(rt, s, Call.RequestNewRound(who, id)).value == WithFeed(s, id, spec.value))
  {
  }

  method RequestInTransaction(st: Storage, who: AccountId, id: FeedId) returns (res: Result<()>)
    requires st.Valid() && id in st.feeds && id in st.requesters && who in st.requesters[id]
    modifies st`feeds, st`rounds, st`details, st`history, st`requesters
    ensures var spec := RequestNewRoundStep(st.rt, old(st.Value()), Call.RequestNewRound(who, id));
            && res == Verdict(spec)
            && (res.Ok? ==> st.Valid() && st.Value() == spec.value)
  {
    hide Rows.BecameAt, Rows.FeedWith, Rows.Feeds, Rows.Match, RequestWith, RequestNewRoundStep;
    FeedOf(st.Rows(), st.feeds, id);
    RequestersOf(st.Rows(), st.feeds, id);
    RequestConcernsOneFeed(st.rt, st.Value(), who, id);
    ghost var before, configs, f := st.Rows(), st.feeds, st.Rows().FeedWith(id, st.feeds[id]);
    ghost var spec := RequestWith(st.rt, f, st.now, who);
    var feed := new Feed(st, id, st.feeds[id]);
    res := RequestThrough(st, feed, who, st.requesters[id][who]);
    feed.Drop();
    if res.Ok? {
      Synced(before, st.Rows(), configs, id, spec.value);
    }
  }

  /** Ask for a new round: all of it happens, or nothing. */
  method RequestNewRound(st: Storage, who: AccountId, id: FeedId) returns (res: Result<()>)
    requires st.Valid()
    modifies st
    ensures st.Valid()
    ensures Outcome(st.Value(), res) == Step(st.rt, old(st.Value()), Call.RequestNewRound(who, id))
  {
    hide Step, Rows.FeedWith, Rows.Feeds, Rows.Match, RequestWith, RequestNewRoundStep;
    StepOf(st.rt, st.Value(), Call.RequestNewRound(who, id));
    FeedOf(st.Rows(), st.feeds, id);
    RequestersOf(st.Rows(), st.feeds, id);
    RequestConcernsOneFeed(st.rt, st.Value(), who, id);
    if id !in st.requesters || who !in st.requesters[id] {
      return Err(NotAuthorizedRequester);
    }
    var saved := Save(st);
    ghost var history := st.history;
    res := RequestInTransaction(st, who, id);
    if res.Err? {
      Rollback(st, saved, history);
    }
  }

  // --- payments ---

  /** Not transactional: when the transfer is refused the amount stays unreserved. */
  method WithdrawPayment(st: Storage, who: AccountId, oracle: AccountId, recipient: AccountId, amount: Balance, refused: bool)
    returns (res: Result<()>)
    requires st.Valid()
    modifies st`oracles, st`free, st`reserved, st`ledger
    ensures st.Valid()
    ensures Outcome(st.Value(), res)
         == Step(st.rt, old(st.Value()), Call.WithdrawPayment(who, oracle, recipient, amount, refused))
  {
    hide Step, Rows.Feeds, Rows.Match;
    StepOf(st.rt, st.Value(), Call.WithdrawPayment(who, oracle, recipient, amount, refused));
    if oracle !in st.oracles {
      return Err(OracleNotFound);
    }
    var meta := st.oracles[oracle];
    if meta.admin != who {
      return Err(NotAdmin);
    }
    if meta.withdrawable < amount {
      return Err(InsufficientFunds);
    }
    meta := meta.(withdrawable := meta.withdrawable - amount);
    if st.reserved < amount {
      return Err(InsufficientReserve);
    }
    st.free, st.reserved := st.free + amount, st.reserved - amount;
    if refused {
      st.ledger := st.ledger.(released := st.ledger.released + amount);
      return Err(CurrencyRefused);
    }
    PayOut(st, oracle, meta, recipient, amount);
    return Ok(());
  }

  /** The transfer went through: the money leaves the fund and the new balance is stored. */
  method PayOut(st: Storage, oracle: AccountId, meta: OracleMeta, recipient: AccountId, amount: Balance)
    requires amount <= st.free
    modifies st`free, st`oracles, st`ledger
    ensures Ok(Fund(st.free, st.reserved)) == TransferOut(st.rt, Fund(old(st.free), st.reserved), recipient, amount, false)
    ensures st.oracles == old(st.oracles)[oracle := meta]
    ensures st.ledger == old(st.ledger).(paid := old(st.ledger).paid[oracle := PaidTo(old(st.ledger), oracle) + amount])
  {
    if recipient != st.rt.fundAccount {
      st.free := st.free - amount;
    }
    st.oracles := st.oracles[oracle := meta];
    st.ledger := st.ledger.(paid := st.ledger.paid[oracle := PaidTo(st.ledger, oracle) + amount]);
  }

  method WithdrawFunds(st: Storage, who: AccountId, recipient: AccountId, amount: Balance, refused: bool)
    returns (res: Result<()>)
    requires st.Valid()
    modifies st`free
    ensures st.Valid()
    ensures Outcome(st.Value(), res) == Step(st.rt, old(st.Value()), Call.WithdrawFunds(who, recipient, amount, refused))
  {
    hide Step, Rows.Feeds, Rows.Match;
    StepOf(st.rt, st.Value(), Call.WithdrawFunds(who, recipient, amount, refused));
    if who != st.palletAdmin {
      return Err(NotPalletAdmin);
    }
    if st.free < amount {
      return Err(InsufficientFunds);
    }
    if st.free - amount < st.rt.minimumReserve {
      return Err(InsufficientReserve);
    }
    if refused {
      return Err(CurrencyRefused);
    }
    if recipient != st.rt.fundAccount {
      st.free := st.free - amount;
    }
    return Ok(());
  }

  /** Moves free funds to the reserve and writes the debt down through the proxy. */
  method ReduceThenDrop(st: Storage, id: FeedId, amount: Balance, refused: bool) returns (res: Result<()>)
    requires id in st.feeds
    modifies st`feeds, st`free, st`reserved
    ensures var c := old(st.feeds[id]);
            var spec := Reserve(Fund(old(st.free), old(st.reserved)), if amount <= c.debt then amount else c.debt, refused);
            && res == Verdict(spec)
            && Fund(st.free, st.reserved) == (if res.Ok? then spec.value else Fund(old(st.free), old(st.reserved)))
            && st.feeds == old(st.feeds)[id := if res.Ok? then c.(debt := SaturatingSub(c.debt, amount)) else c]
  {
    var feed := new Feed(st, id, st.feeds[id]);
    var toReserve := if amount <= feed.config.debt then amount else feed.config.debt;
    if refused || st.free < toReserve {
      res := Err(CurrencyRefused);
    } else {
      st.free, st.reserved := st.free - toReserve, st.reserved + toReserve;
      feed.config := feed.config.(debt := SaturatingSub(feed.config.debt, amount));
      res := Ok(());
    }
    feed.Drop();
  }

  method ReduceDebt(st: Storage, who: AccountId, id: FeedId, amount: Balance, refused: bool) returns (res: Result<()>)
    requires st.Valid()
    modifies st`feeds, st`free, st`reserved
    ensures st.Valid()
    ensures Outcome(st.Value(), res) == Step(st.rt, old(st.Value()), Call.ReduceDebt(who, id, amount, refused))
  {
    hide Step, Reserve, Rows.BecameAt, Rows.FeedWith, Rows.Feeds, Rows.Match;
    StepOf(st.rt, st.Value(), Call.ReduceDebt(who, id, amount, refused));
    FeedOf(st.Rows(), st.feeds, id);
    if id !in st.feeds {
      return Err(FeedNotFound);
    }
    ghost var before, configs, f := st.Rows(), st.feeds, st.Rows().FeedWith(id, st.feeds[id]);
    res := ReduceThenDrop(st, id, amount, refused);
    ghost var g := f.(config := st.feeds[id]);
    ConfigOnly(before, id, f, st.feeds[id]);
    Synced(before, st.Rows(), configs, id, g);
    assert res.Err? ==> g == f;
  }

  // --- creating a feed ---

  method CreateThrough(feed: Feed, c: Call) returns (res: Result<()>)
    requires feed.Attached() && c.CreateFeed?
    modifies feed, feed.storage`statuses, feed.storage`oracles
    ensures var spec := CreateWith(feed.storage.rt, old(feed.View()), old(feed.storage.oracles), c);
            && res == Verdict(spec)
            && (res.Ok? ==> feed.Became(spec.value.0) && feed.storage.oracles == spec.value.1)
  {
    hide Feeds.AddOracles, Feeds.UpdateFutureRounds;
    res := feed.AddOracles(c.newOracles);
    if res.Err? {
      return;
    }
    res := feed.UpdateFutureRounds(c.payment, CountBounds(c.minSubmissions, |c.newOracles|), c.restartDelay, c.timeout);
  }

  ghost function CreateWith(rt: Runtime, seed: FeedState, oracles: map<AccountId, OracleMeta>, c: Call)
    : Result<(FeedState, map<AccountId, OracleMeta>)>
    requires c.CreateFeed?
  {
    var (staffed, oracles') :- AddOracles(rt, seed, oracles, c.newOracles);
    var f :- Feeds.UpdateFutureRounds(staffed, c.payment, CountBounds(c.minSubmissions, |c.newOracles|), c.restartDelay, c.timeout);
    Ok((f, oracles'))
  }

  /** Gives feed `id` its first rows: the seed data of round 0 and nothing else. */
  method SeedRows(st: Storage, id: FeedId, ghost config: FeedConfig)
    modifies st`rounds, st`details, st`statuses, st`requesters, st`history
    ensures old(st.Rows()).BecameAt(st.Rows(), id, SeedFeed(config, st.now))
  {
    ElsewhereSame(st.rounds, id, map[0 := Round(st.now, Some(0), Some(st.now), Some(0))]);
    ElsewhereSame(st.details, id, map[]);
    ElsewhereSame(st.statuses, id, map[]);
    ElsewhereSame(st.requesters, id, map[]);
    ElsewhereSame(st.history, id, History(map[], []));
    st.rounds := st.rounds[id := map[0 := Round(st.now, Some(0), Some(st.now), Some(0))]];
    st.details := st.details[id := map[]];
    st.statuses := st.statuses[id := map[]];
    st.requesters := st.requesters[id := map[]];
    st.history := st.history[id := History(map[], [])];
  }

  method CreateInTransaction(st: Storage, c: Call, window: Window) returns (res: Result<()>)
    requires st.Valid() && c.CreateFeed? && window == c.pruningWindow.GetOr(U32_MAX)
    requires c.who in st.feedCreators && c.descriptionLength <= st.rt.stringLimit
    modifies st`feedCounter, st`feeds, st`rounds, st`details, st`statuses, st`requesters, st`history, st`oracles
    ensures var spec := CreateFeedStep(st.rt, old(st.Value()), c);
            && res == Verdict(spec)
            && (res.Ok? ==> st.Valid() && st.Value() == spec.value)
  {
    hide Rows.BecameAt, Rows.FeedWith, Rows.Feeds, Rows.Match, CreateFeedStep, CreateWith, SeedFeed;
    CreationConcernsOneFeed(st.rt, st.Value(), c, window);
    var id := st.feedCounter;
    if id >= st.rt.feedLimit {
      return Err(FeedLimitReached);
    }
    if id + 1 > st.rt.feedIdMax {
      return Err(Overflow);
    }
    st.feedCounter := id + 1;
    ghost var before, configs := st.Rows(), st.feeds;
    ghost var spec := CreateWith(st.rt, SeedFeed(NewFeedConfig(c, window), st.now), st.oracles, c);
    res := SeedThenCreate(st, c, id, window);
    if res.Ok? {
      Synced(before, st.Rows(), configs, id, spec.value.0);
    }
  }

  /** Stores the seed data, fills the feed through its proxy, and drops the proxy. */
  method SeedThenCreate(st: Storage, c: Call, id: FeedId, window: Window) returns (res: Result<()>)
    requires c.CreateFeed?
    modifies st`feeds, st`rounds, st`details, st`statuses, st`requesters, st`history, st`oracles
    ensures var spec := CreateWith(st.rt, SeedFeed(NewFeedConfig(c, window), st.now), old(st.oracles), c);
            && res == Verdict(spec)
            && (res.Ok? ==>
                  && st.feeds == old(st.feeds)[id := spec.value.0.config] && st.oracles == spec.value.1
                  && old(st.Rows()).BecameAt(st.Rows(), id, spec.value.0))
  {
    hide Rows.BecameAt, Rows.FeedWith, CreateWith, SeedFeed, NewFeedConfig;
    var config := NewFeedConfig(c, window);
    var feed := new Feed(st, id, config);
    ghost var before, seed := st.Rows(), SeedFeed(config, st.now);
    SeedRows(st, id, config);
    ghost var seeded := st.Rows();
    ghost var spec := CreateWith(st.rt, seed, st.oracles, c);
    RowsOf(before, seeded, id, seed);
    SeedConfig(config, st.now);
    res := CreateThrough(feed, c);
    feed.Drop();
    if res.Ok? {
      BecameTwice(before, seeded, st.Rows(), id, seed, spec.value.0);
    }
  }

  lemma SeedConfig(config: FeedConfig, now: BlockNumber)
    ensures SeedFeed(config, now).config == config
  {
  }

  lemma RowsOf(a: Rows, b: Rows, id: FeedId, g: FeedState)
    requires a.BecameAt(b, id, g)
    ensures b.Has(id) && b.FeedWith(id, g.config) == g
  {
  }

  /** Create a feed: all of it happens, or nothing. */
  method CreateFeed(st: Storage, c: Call) returns (res: Result<()>)
    requires st.Valid() && c.CreateFeed?
    modifies st
    ensures st.Valid()
    ensures Outcome(st.Value(), res) == Step(st.rt, old(st.Value()), c)
  {
    CreationChecks(st.rt, st.Value(), c);
    hide Step, CreateFeedStep;
    StepOf(st.rt, st.Value(), c);
    if c.who !in st.feedCreators {
      return Err(NotFeedCreator);
    }
    if c.descriptionLength > st.rt.stringLimit {
      return Err(DescriptionTooLong);
    }
    var window := c.pruningWindow.GetOr(U32_MAX);
    if window == 0 {
      return Err(CannotPruneRoundZero);
    }
    var saved := Save(st);
    ghost var history := st.history;
    res := CreateInTransaction(st, c, window);
    if res.Err? {
      Rollback(st, saved, history);
    }
  }

  lemma CreationChecks(rt: Runtime, s: State, c: Call)
    requires c.CreateFeed?
    ensures c.who !in s.feedCreators ==> CreateFeedStep(rt, s, c) == Err(NotFeedCreator)
    ensures c.who in s.feedCreators && c.descriptionLength > rt.stringLimit ==>
              CreateFeedStep(rt, s, c) == Err(DescriptionTooLong)
    ensures c.who in s.feedCreators && c.descriptionLength <= rt.stringLimit && c.pruningWindow == Some(0) ==>
              CreateFeedStep(rt, s, c) == Err(CannotPruneRoundZero)
  {
  }

  /** `CreateFeedStep` on the one feed it adds, once the checks outside the transaction are passed. */
  lemma CreationConcernsOneFeed(rt: Runtime, s: State, c: Call, window: Window)
    requires c.CreateFeed? && c.who in s.feedCreators && c.descriptionLength <= rt.stringLimit
    requires window == c.pruningWindow.GetOr(U32_MAX)
    ensures s.feedCounter >= rt.feedLimit ==> CreateFeedStep(rt, s, c) == Err(FeedLimitReached)
    ensures s.feedCounter < rt.feedLimit && s.feedCounter + 1 > rt.feedIdMax ==> CreateFeedStep(rt, s, c) == Err(Overflow)
    ensures s.feedCounter < rt.feedLimit && s.feedCounter + 1 <= rt.feedIdMax ==>
              var spec := CreateWith(rt, SeedFeed(NewFeedConfig(c, window), s.now), s.oracles, c);
              && Verdict(CreateFeedStep(rt, s, c)) == Verdict(spec)
              && (spec.Ok? ==>
                    CreateFeedStep(rt, s, c).value
                    == WithFeed(s, s.feedCounter, spec.value.0).(feedCounter := s.feedCounter + 1, oracles := spec.value.1))
  {
  }
}
