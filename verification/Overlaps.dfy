/** Runs that the breakers allow and in which two workers on one delivery overwrite each other. */
module Overlaps {
  import opened Core
  import opened Breaker
  import opened Deliveries
  import opened Worker
  import opened System
  import opened Ledgers
  import opened Admission
  import opened Solo

  const TIMEOUT: Answer := TransientError("timeout")

  /** One delivery, and its two messages at tasks 1 and 2, at these phases; the breaker heard nothing after `at`. */
  ghost predicate Twins(w: World, one: Phase, two: Phase, row: Delivery, at: real) {
    && |w.state.tasks| == 3
    && w.state.tasks[1].message.delivery == Some(0) == w.state.tasks[2].message.delivery
    && w.state.tasks[1].phase == one && w.state.tasks[2].phase == two
    && w.state.tables.deliveries == [row] && row.id == 0 == row.document
    && ActiveAccount(w.state.tables, row.account)
    && forall k :: 0 <= k < |w.Past(row.account)| ==> w.Past(row.account)[k].at <= at
  }

  lemma BothLoad(cfg: Config, w: World, row: Delivery, at: real) returns (w': World)
    requires Twins(w, Queued, Queued, row, at)
    ensures Leads(cfg, w, [Load(1), Load(2)], w') && Twins(w', Loaded(row), Loaded(row), row, at)
    ensures w'.state.history == w.state.history
  {
    w' := LeadsTwo(cfg, w, Load(1), Load(2));
    assert w'.Past(row.account) == w.Past(row.account);
  }

  lemma BothBegin(cfg: Config, w: World, row: Delivery, at: real, now: real) returns (w': World)
    requires Twins(w, Loaded(row), Loaded(row), row, at) && at + cfg.recoveryTimeout <= now
    ensures var sending := row.MarkedSending(now);
      && Leads(cfg, w, [BeginSending(1, now), BeginSending(2, now)], w')
      && Twins(w', Calling(sending), Calling(sending), sending, now)
      && w'.state.history == w.state.history
  {
    var past, c := w.Past(row.account), Checked(now);
    OldFailuresAdmit(cfg, past, now);
    assert !Rejects(cfg, past + [c], now) by {
      NoFreshFailure(cfg, past, c, now);
    }
    w' := LeadsTwo(cfg, w, BeginSending(1, now), BeginSending(2, now));
  }

  lemma NoFreshFailure(cfg: Config, past: seq<Event>, c: Event, now: real)
    requires forall i :: 0 <= i < |past| ==> past[i].at <= now - cfg.recoveryTimeout
    requires !c.Failed?
    ensures !Rejects(cfg, past + [c], now)
  {
  }

  lemma BothAnswered(cfg: Config, w: World, row: Delivery, at: real) returns (w': World)
    requires Twins(w, Calling(row), Calling(row), row, at)
    ensures Leads(cfg, w, [AnswerCall(1, TIMEOUT), AnswerCall(2, TIMEOUT)], w')
    ensures Twins(w', Replied(row, TIMEOUT), Replied(row, TIMEOUT), row, at)
    ensures w'.state.history == w.state.history
  {
    w' := LeadsTwo(cfg, w, AnswerCall(1, TIMEOUT), AnswerCall(2, TIMEOUT));
    assert w'.Past(row.account) == w.Past(row.account);
  }

  /** The retry is dispatched a second time before the first message is taken. */
  lemma SecondDispatch(cfg: Config, w: World, at: real) returns (w': World)
    requires Waiting(cfg, w, 1, at + cfg.recoveryTimeout)
    requires var row := w.state.tables.deliveries[0]; row.status == PENDING && row.nextRetryAt == Some(at)
    ensures Leads(cfg, w, [DispatchDue(0, at)], w')
    ensures Twins(w', Queued, Queued, w.state.tables.deliveries[0], at)
    ensures w'.state.history == w.state.history && w'.state.calls == w.state.calls
  {
    var step := DispatchDue(0, at);
    w' := Advance(cfg, w, step);
    assert w.state.tables.deliveries == [w.state.tables.deliveries[0]];
    assert forall account :: w'.Past(account) == w.Past(account);
    assert IsTrace(cfg, [w, w'], [step]);
  }

  /** One failed run, its retry dispatched twice. */
  function TwinSteps(): seq<Step> {
    [Submit(REQUEST, 0.0)] + RunThen(0, Failing(0.0), DispatchDue(0, 0.0)) + [DispatchDue(0, 0.0)]
  }

  lemma ReachTwins(cfg: Config) returns (w: World, row: Delivery)
    requires cfg.maxAttempts >= 1
    ensures Leads(cfg, World(Initial(ACCOUNTS), map[]), TwinSteps(), w)
    ensures Twins(w, Queued, Queued, row, 0.0)
    ensures row.retryCount == 1 && Retries(cfg, w.state, 0) == 1
    ensures w.state.calls == [ProviderCall(0, TIMEOUT)]
  {
    var w1 := FirstSubmission(cfg);
    var w2 := RetriedOnce(cfg, w1, 0, 0.0);
    w := SecondDispatch(cfg, w2, 0.0);
    row := w2.state.tables.deliveries[0];
    LeadsThrice(cfg, World(Initial(ACCOUNTS), map[]), [Submit(REQUEST, 0.0)], w1,
                RunThen(0, Failing(0.0), DispatchDue(0, 0.0)), w2, [DispatchDue(0, 0.0)], w);
  }

  /** Then both workers load and begin, and both have the provider's second transient error. */
  function OverlapSteps(cfg: Config): seq<Step> {
    var now := cfg.recoveryTimeout;
    TwinSteps() + [Load(1), Load(2)] + [BeginSending(1, now), BeginSending(2, now)]
    + [AnswerCall(1, TIMEOUT), AnswerCall(2, TIMEOUT)]
  }

  lemma ReachOverlap(cfg: Config) returns (w: World, row: Delivery)
    requires cfg.maxAttempts >= 1
    ensures Leads(cfg, World(Initial(ACCOUNTS), map[]), OverlapSteps(cfg), w)
    ensures Twins(w, Replied(row, TIMEOUT), Replied(row, TIMEOUT), row, cfg.recoveryTimeout)
    ensures row.status == SENDING && row.retryCount == 1 && Retries(cfg, w.state, 0) == 1
  {
    var now, w0 := cfg.recoveryTimeout, World(Initial(ACCOUNTS), map[]);
    var w3, loaded := ReachTwins(cfg);
    var w4 := BothLoad(cfg, w3, loaded, 0.0);
    var w5 := BothBegin(cfg, w4, loaded, 0.0, now);
    row := loaded.MarkedSending(now);
    w := BothAnswered(cfg, w5, row, now);
    var d, e := [Load(1), Load(2)], [BeginSending(1, now), BeginSending(2, now)];
    LeadsThrice(cfg, w0, TwinSteps(), w3, d, w4, e, w5);
    LeadsThen(cfg, w0, TwinSteps() + d + e, w5, [AnswerCall(1, TIMEOUT), AnswerCall(2, TIMEOUT)], w);
  }

  /** The second commit repeats the count of the first: three retries were scheduled and the row counts two. */
  lemma BothFinish(cfg: Config, w: World, row: Delivery, now: real) returns (w': World)
    requires Twins(w, Replied(row, TIMEOUT), Replied(row, TIMEOUT), row, now)
    requires row.retryCount == 1 < cfg.maxAttempts && Retries(cfg, w.state, 0) == 1
    ensures Leads(cfg, w, [Finish(1, true, now, 0.0), Finish(2, true, now, 0.0)], w')
    ensures StoredRetries(w'.state, 0) == 2 && Retries(cfg, w'.state, 0) == 3
  {
    var r := Attempt(row, TIMEOUT, true, now, 0.0);
    w' := LeadsTwo(cfg, w, Finish(1, true, now, 0.0), Finish(2, true, now, 0.0));
    assert w'.state.history == w.state.history + [r] + [r];
    TwoMoreRetries(cfg, w.state.history, r);
  }

  lemma TwoMoreRetries(cfg: Config, h: seq<RunRecord>, r: RunRecord)
    requires RetriesFor(cfg, 0)(r)
    ensures Count(h + [r] + [r], RetriesFor(cfg, 0)) == Count(h, RetriesFor(cfg, 0)) + 2
  {
    CountAppend(h, r, RetriesFor(cfg, 0));
    CountAppend(h + [r], r, RetriesFor(cfg, 0));
  }

  /** With two workers on one delivery the retry count falls behind the retries. */
  lemma OverlapLosesRetry(cfg: Config)
    requires cfg.maxAttempts >= 2
    ensures var now := cfg.recoveryTimeout;
      var steps := OverlapSteps(cfg) + [Finish(1, true, now, 0.0), Finish(2, true, now, 0.0)];
      var s := Exec(cfg, Initial(ACCOUNTS), steps);
      CanHappen(cfg, ACCOUNTS, steps, s) && StoredRetries(s, 0) == 2 && Retries(cfg, s, 0) == 3
  {
    var now, w0 := cfg.recoveryTimeout, World(Initial(ACCOUNTS), map[]);
    var ends := [Finish(1, true, now, 0.0), Finish(2, true, now, 0.0)];
    var w, row := ReachOverlap(cfg);
    var w' := BothFinish(cfg, w, row, now);
    LeadsThen(cfg, w0, OverlapSteps(cfg), w, ends, w');
    LeadsHappens(cfg, ACCOUNTS, OverlapSteps(cfg) + ends, w');
  }

  // ---- A count that goes down ----

  /** Task 2 still holds this copy with an answer, task 3 is at this phase; the breaker heard nothing after `at`. */
  ghost predicate Straggles(w: World, copy: Delivery, third: Phase, stored: Delivery, at: real) {
    && |w.state.tasks| == 4
    && w.state.tasks[2].phase == Replied(copy, TIMEOUT)
    && w.state.tasks[3].message.delivery == Some(0) && w.state.tasks[3].phase == third
    && w.state.tables.deliveries == [stored] && copy.id == stored.id == 0 && copy.account == stored.account
    && ActiveAccount(w.state.tables, stored.account)
    && forall k :: 0 <= k < |w.Past(stored.account)| ==> w.Past(stored.account)[k].at <= at
  }

  lemma FirstFinishes(cfg: Config, w: World, copy: Delivery, now: real) returns (w': World, stored: Delivery)
    requires Twins(w, Replied(copy, TIMEOUT), Replied(copy, TIMEOUT), copy, now) && copy.retryCount < cfg.maxAttempts
    ensures Leads(cfg, w, [Finish(1, true, now, 0.0), DispatchDue(0, now)], w')
    ensures Straggles(w', copy, Queued, stored, now) && stored.retryCount == copy.retryCount + 1
  {
    stored := copy.RetryScheduled(now + 0.0, now);
    var w1 := Advance(cfg, w, Finish(1, true, now, 0.0));
    assert w1.state.tables.deliveries == [stored];
    assert w1.Past(stored.account) == w.Past(copy.account) + [Failed(now)];
    w' := LeadsTwo(cfg, w, Finish(1, true, now, 0.0), DispatchDue(0, now));
    assert w'.Past(stored.account) == w1.Past(stored.account);
  }

  lemma ThirdBegins(cfg: Config, w: World, copy: Delivery, stored: Delivery, at: real, now: real) returns (w': World)
    requires Straggles(w, copy, Queued, stored, at) && at + cfg.recoveryTimeout <= now
    ensures Leads(cfg, w, [Load(3), BeginSending(3, now)], w')
    ensures Straggles(w', copy, Calling(stored.MarkedSending(now)), stored.MarkedSending(now), now)
  {
    OldFailuresAdmit(cfg, w.Past(stored.account), now);
    w' := LeadsTwo(cfg, w, Load(3), BeginSending(3, now));
    assert w'.Past(stored.account) == w.Past(stored.account) + [Checked(now)];
  }

  lemma ThirdFinishes(cfg: Config, w: World, copy: Delivery, stored: Delivery, now: real)
    returns (w': World, last: Delivery)
    requires Straggles(w, copy, Calling(stored), stored, now) && stored.retryCount < cfg.maxAttempts
    ensures Leads(cfg, w, [AnswerCall(3, TIMEOUT), Finish(3, true, now, 0.0)], w')
    ensures Straggles(w', copy, Ended, last, now) && last.retryCount == stored.retryCount + 1
  {
    assert Advance(cfg, w, AnswerCall(3, TIMEOUT)).Past(stored.account) == w.Past(stored.account);
    w' := LeadsTwo(cfg, w, AnswerCall(3, TIMEOUT), Finish(3, true, now, 0.0));
    last := stored.RetryScheduled(now + 0.0, now);
    assert w'.state.tables.deliveries == [last];
    assert w'.Past(stored.account) == w.Past(stored.account) + [Failed(now)];
  }

  lemma StragglerFinishes(cfg: Config, w: World, copy: Delivery, stored: Delivery, now: real) returns (w': World)
    requires Straggles(w, copy, Ended, stored, now) && copy.retryCount < cfg.maxAttempts
    ensures Leads(cfg, w, [Finish(2, true, now, 0.0)], w')
    ensures StoredRetries(w'.state, 0) == copy.retryCount + 1
  {
    var step := Finish(2, true, now, 0.0);
    w' := Advance(cfg, w, step);
    assert IsTrace(cfg, [w, w'], [step]);
  }

  /** One worker finishes, and its retry is dispatched. */
  function SecondSteps(cfg: Config): seq<Step> {
    OverlapSteps(cfg) + [Finish(1, true, cfg.recoveryTimeout, 0.0), DispatchDue(0, cfg.recoveryTimeout)]
  }

  lemma ReachSecond(cfg: Config) returns (w: World, copy: Delivery, stored: Delivery)
    requires cfg.maxAttempts >= 2
    ensures Leads(cfg, World(Initial(ACCOUNTS), map[]), SecondSteps(cfg), w)
    ensures Straggles(w, copy, Queued, stored, cfg.recoveryTimeout)
    ensures copy.retryCount == 1 && stored.retryCount == 2
  {
    var now := cfg.recoveryTimeout;
    var w1;
    w1, copy := ReachOverlap(cfg);
    w, stored := FirstFinishes(cfg, w1, copy, now);
    LeadsThen(cfg, World(Initial(ACCOUNTS), map[]), OverlapSteps(cfg), w1,
              [Finish(1, true, now, 0.0), DispatchDue(0, now)], w);
  }

  /** A third worker begins to send. */
  function ThirdSteps(cfg: Config): seq<Step> {
    SecondSteps(cfg) + [Load(3), BeginSending(3, cfg.recoveryTimeout + cfg.recoveryTimeout)]
  }

  lemma ReachThird(cfg: Config) returns (w: World, copy: Delivery, stored: Delivery)
    requires cfg.maxAttempts >= 2
    ensures Leads(cfg, World(Initial(ACCOUNTS), map[]), ThirdSteps(cfg), w)
    ensures Straggles(w, copy, Calling(stored), stored, cfg.recoveryTimeout + cfg.recoveryTimeout)
    ensures copy.retryCount == 1 && stored.retryCount == 2
  {
    var now := cfg.recoveryTimeout;
    var w2, second;
    w2, copy, second := ReachSecond(cfg);
    w := ThirdBegins(cfg, w2, copy, second, now, now + now);
    stored := second.MarkedSending(now + now);
    LeadsThen(cfg, World(Initial(ACCOUNTS), map[]), SecondSteps(cfg), w2, [Load(3), BeginSending(3, now + now)], w);
  }

  /** Its call fails too. */
  function StragglerSteps(cfg: Config): seq<Step> {
    var later := cfg.recoveryTimeout + cfg.recoveryTimeout;
    ThirdSteps(cfg) + [AnswerCall(3, TIMEOUT), Finish(3, true, later, 0.0)]
  }

  lemma ReachStraggler(cfg: Config) returns (w: World, copy: Delivery, stored: Delivery)
    requires cfg.maxAttempts >= 3
    ensures Leads(cfg, World(Initial(ACCOUNTS), map[]), StragglerSteps(cfg), w)
    ensures Straggles(w, copy, Ended, stored, cfg.recoveryTimeout + cfg.recoveryTimeout)
    ensures copy.retryCount == 1 && stored.retryCount == 3
  {
    var later := cfg.recoveryTimeout + cfg.recoveryTimeout;
    var w3, third;
    w3, copy, third := ReachThird(cfg);
    w, stored := ThirdFinishes(cfg, w3, copy, third, later);
    LeadsThen(cfg, World(Initial(ACCOUNTS), map[]), ThirdSteps(cfg), w3,
              [AnswerCall(3, TIMEOUT), Finish(3, true, later, 0.0)], w);
  }

  function LastFinish(cfg: Config): Step {
    Finish(2, true, cfg.recoveryTimeout + cfg.recoveryTimeout, 0.0)
  }

  lemma ReachLowered(cfg: Config) returns (w: World, w': World)
    requires cfg.maxAttempts >= 3
    ensures Leads(cfg, World(Initial(ACCOUNTS), map[]), StragglerSteps(cfg), w)
    ensures Leads(cfg, World(Initial(ACCOUNTS), map[]), StragglerSteps(cfg) + [LastFinish(cfg)], w')
    ensures StoredRetries(w.state, 0) == 3 && StoredRetries(w'.state, 0) == 2
  {
    var copy, stored;
    w, copy, stored := ReachStraggler(cfg);
    w' := StragglerFinishes(cfg, w, copy, stored, cfg.recoveryTimeout + cfg.recoveryTimeout);
    LeadsThen(cfg, World(Initial(ACCOUNTS), map[]), StragglerSteps(cfg), w, [LastFinish(cfg)], w');
  }

  /** Then the straggler's commit brings the retry count from three back to two. */
  lemma OverlapLowersRetryCount(cfg: Config)
    requires cfg.maxAttempts >= 3
    ensures var steps, last := StragglerSteps(cfg), LastFinish(cfg);
      var s, s' := Exec(cfg, Initial(ACCOUNTS), steps), Exec(cfg, Initial(ACCOUNTS), steps + [last]);
      CanHappen(cfg, ACCOUNTS, steps + [last], s') && StoredRetries(s, 0) == 3 && StoredRetries(s', 0) == 2
  {
    var w, w' := ReachLowered(cfg);
    LeadsHappens(cfg, ACCOUNTS, StragglerSteps(cfg), w);
    LeadsHappens(cfg, ACCOUNTS, StragglerSteps(cfg) + [LastFinish(cfg)], w');
  }
}
