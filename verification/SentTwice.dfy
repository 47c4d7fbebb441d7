/** Runs that the breakers allow and in which the provider accepts one document twice. */
module SentTwice {
  import opened Core
  import opened Breaker
  import opened Deliveries
  import opened Store
  import opened Worker
  import opened Documents
  import opened Dlq
  import opened System
  import opened Crashes
  import opened Admission
  import opened Solo
  import opened Overlaps

  // ---- A dead letter outlives its delivery's failure ----

  lemma RequeuedAlone(row: Delivery)
    requires row.status == FAILED && row.document == 0
    ensures FailedOf([row], 0) == [0] && Documents.Resends([0]) == [Message(Some(0), "")]
  {
    assert [row][..0] == [];
  }

  /** With no retry left: the error fails the delivery with a retryable dead letter; then a forced retry. */
  lemma FailedThenForced(cfg: Config, w: World, t: nat, at: real) returns (w': World)
    requires Waiting(cfg, w, t, at)
    requires w.state.tables.deliveries[0].retryCount >= cfg.maxAttempts && w.state.tables.dlq == []
    ensures Leads(cfg, w, RunThen(t, Failing(at), Retry(0, true)), w')
    ensures Waiting(cfg, w', t + 1, at + cfg.recoveryTimeout)
    ensures |w'.state.tables.dlq| == 1 && IsDue(w'.state.tables.dlq[0])
    ensures SweepMessage(w'.state.tables.dlq[0]) == Message(Some(0), "")
  {
    SettledTables(cfg, w.state, t, Failing(at));
    RequeuedAlone(Settled(cfg, w.state, t, Failing(at)).tables.deliveries[0]);
    w' := RunsOn(cfg, w, t, Failing(at), Retry(0, true), at);
  }

  lemma SweptAlone(e: DlqEntry, now: real)
    requires IsDue(e)
    ensures Sweep(Desk([e], []), {}, now).queue == [SweepMessage(e)]
  {
    DueAlone(e);
    SentAlone(e);
    OneMessage(e);
    SweepOverTraffic(Desk([e], []), Due([e]), {}, now);
  }

  /** The forced run succeeds; then the sweep replays the old dead letter. */
  lemma SentThenSwept(cfg: Config, w: World, t: nat, at: real) returns (w': World)
    requires Waiting(cfg, w, t, at) && |w.state.tables.dlq| == 1
    requires IsDue(w.state.tables.dlq[0]) && SweepMessage(w.state.tables.dlq[0]) == Message(Some(0), "")
    ensures Leads(cfg, w, RunThen(t, Accepting("a", at), AutoReplay({}, at)), w')
    ensures Waiting(cfg, w', t + 1, at + cfg.recoveryTimeout)
    ensures w'.state.calls == w.state.calls + [ProviderCall(0, Accepted("a"))]
  {
    SettledTables(cfg, w.state, t, Accepting("a", at));
    var dlq := w.state.tables.dlq;
    assert dlq == [dlq[0]];
    SweptAlone(dlq[0], at);
    w' := RunsOn(cfg, w, t, Accepting("a", at), AutoReplay({}, at), at);
  }

  /** The provider has accepted the document as "a" and again as "b". */
  ghost predicate TwiceSent(s: State) {
    && |s.tables.deliveries| == 1 && s.tables.deliveries[0].status == SENT
    && s.tables.deliveries[0].providerDocumentId == Some("b")
    && |s.calls| >= 2
    && s.calls[|s.calls| - 2..] == [ProviderCall(0, Accepted("a")), ProviderCall(0, Accepted("b"))]
  }

  lemma SentAgain(cfg: Config, w: World, t: nat, at: real) returns (w': World)
    requires Ready(cfg, w, t, at)
    requires w.state.calls != [] && w.state.calls[|w.state.calls| - 1] == ProviderCall(0, Accepted("a"))
    ensures Leads(cfg, w, AloneSteps(t, Answered, Accepting("b", at)), w') && TwiceSent(w'.state)
    ensures w'.state.calls == w.state.calls + [ProviderCall(0, Accepted("b"))]
  {
    SettledTables(cfg, w.state, t, Accepting("b", at));
    w' := AnsweredLeads(cfg, w, t, Accepting("b", at), at);
  }

  /** No crash, no exception out of a task, and Redis up. */
  predicate Faultless(steps: seq<Step>) {
    forall k :: 0 <= k < |steps| ==> !steps[k].Crash? && !steps[k].Abort? && (steps[k].Finish? ==> steps[k].redisUp)
  }

  /** Transient errors a timeout apart, each retried, starting with task t. */
  function Retried(cfg: Config, t: nat, n: nat, at: real): seq<Step>
    decreases n
  {
    if n == 0 then []
    else RunThen(t, Failing(at), DispatchDue(0, at)) + Retried(cfg, t + 1, n - 1, at + cfg.recoveryTimeout)
  }

  /** n timeouts after `at`. */
  function Later(cfg: Config, at: real, n: nat): real
    decreases n
  {
    if n == 0 then at else Later(cfg, at + cfg.recoveryTimeout, n - 1)
  }

  lemma {:induction false} SpendRetries(cfg: Config, w: World, t: nat, n: nat, at: real) returns (w': World)
    requires Waiting(cfg, w, t, at) && (n > 0 ==> w.state.tables.deliveries[0].retryCount + n <= cfg.maxAttempts)
    ensures Leads(cfg, w, Retried(cfg, t, n, at), w')
    ensures Waiting(cfg, w', t + n, Later(cfg, at, n)) && w'.state.tables.dlq == w.state.tables.dlq
    ensures w'.state.tables.deliveries[0].retryCount == w.state.tables.deliveries[0].retryCount + n
    decreases n
  {
    if n == 0 {
      w' := w;
      assert IsTrace(cfg, [w], []);
    } else {
      var first, later := RunThen(t, Failing(at), DispatchDue(0, at)), at + cfg.recoveryTimeout;
      var w1 := RetriedOnce(cfg, w, t, at);
      w' := SpendRetries(cfg, w1, t + 1, n - 1, later);
      LeadsThen(cfg, w, first, w1, Retried(cfg, t + 1, n - 1, later), w');
    }
  }

  /** The last failure, a forced retry that succeeds, a sweep, and the run it causes. */
  function FailSendAndSweep(cfg: Config, t: nat, at: real): seq<Step> {
    var at1 := at + cfg.recoveryTimeout;
    RunThen(t, Failing(at), Retry(0, true)) + RunThen(t + 1, Accepting("a", at1), AutoReplay({}, at1))
    + AloneSteps(t + 2, Answered, Accepting("b", at1 + cfg.recoveryTimeout))
  }

  lemma TwiceSentOnceSpent(cfg: Config, w: World, t: nat, at: real) returns (w': World)
    requires Waiting(cfg, w, t, at)
    requires w.state.tables.deliveries[0].retryCount >= cfg.maxAttempts && w.state.tables.dlq == []
    ensures Leads(cfg, w, FailSendAndSweep(cfg, t, at), w') && TwiceSent(w'.state)
  {
    var at1 := at + cfg.recoveryTimeout;
    var at2 := at1 + cfg.recoveryTimeout;
    var a, b := RunThen(t, Failing(at), Retry(0, true)), RunThen(t + 1, Accepting("a", at1), AutoReplay({}, at1));
    var c := AloneSteps(t + 2, Answered, Accepting("b", at2));
    assert FailSendAndSweep(cfg, t, at) == a + b + c;
    var w1 := FailedThenForced(cfg, w, t, at);
    var w2 := SentThenSwept(cfg, w1, t + 1, at1);
    w' := SentAgain(cfg, w2, t + 2, at2);
    LeadsThrice(cfg, w, a, w1, b, w2, c, w');
  }

  /** Failures until no retry is left, a timeout apart, and then FailSendAndSweep. */
  function SweepSendsTwice(cfg: Config): seq<Step> {
    var n := if cfg.maxAttempts > 0 then cfg.maxAttempts else 0;
    [Submit(REQUEST, 0.0)] + Retried(cfg, 0, n, 0.0) + FailSendAndSweep(cfg, n, Later(cfg, 0.0, n))
  }

  lemma {:induction false} RetriedFaultless(cfg: Config, t: nat, n: nat, at: real)
    ensures Faultless(Retried(cfg, t, n, at))
    decreases n
  {
    if n > 0 {
      RetriedFaultless(cfg, t + 1, n - 1, at + cfg.recoveryTimeout);
    }
  }

  lemma FaultlessConcat(a: seq<Step>, b: seq<Step>)
    requires Faultless(a) && Faultless(b)
    ensures Faultless(a + b)
  {
  }

  lemma SweepSendsTwiceFaultless(cfg: Config)
    ensures Faultless(SweepSendsTwice(cfg))
  {
    var n := if cfg.maxAttempts > 0 then cfg.maxAttempts else 0;
    var submit, rest := [Submit(REQUEST, 0.0)], FailSendAndSweep(cfg, n, Later(cfg, 0.0, n));
    RetriedFaultless(cfg, 0, n, 0.0);
    assert Faultless(rest);
    FaultlessConcat(submit, Retried(cfg, 0, n, 0.0));
    FaultlessConcat(submit + Retried(cfg, 0, n, 0.0), rest);
  }

  /**
   * With any settings, from the empty system, with no fault at all and one task at a time: a delivery that
   * failed once and was then sent after a forced retry is sent again when the sweep finds its old dead letter.
   */
  lemma SentTwiceWithoutFault(cfg: Config)
    ensures var s := Exec(cfg, Initial(ACCOUNTS), SweepSendsTwice(cfg));
      CanHappen(cfg, ACCOUNTS, SweepSendsTwice(cfg), s) && TwiceSent(s)
    ensures Faultless(SweepSendsTwice(cfg))
  {
    var n := if cfg.maxAttempts > 0 then cfg.maxAttempts else 0;
    var w0, submit, end := World(Initial(ACCOUNTS), map[]), [Submit(REQUEST, 0.0)], Later(cfg, 0.0, n);
    var w1 := FirstSubmission(cfg);
    var w2 := SpendRetries(cfg, w1, 0, n, 0.0);
    var w3 := TwiceSentOnceSpent(cfg, w2, n, end);
    LeadsThrice(cfg, w0, submit, w1, Retried(cfg, 0, n, 0.0), w2, FailSendAndSweep(cfg, n, end), w3);
    LeadsHappens(cfg, ACCOUNTS, SweepSendsTwice(cfg), w3);
    SweepSendsTwiceFaultless(cfg);
  }

  // ---- Redis fails while an acceptance is recorded ----

  /** The provider accepts, Redis fails, the delivery is FAILED; a forced retry sends it again. */
  function ForcedSendsTwice(cfg: Config): seq<Step> {
    [Submit(REQUEST, 0.0)]
    + RunThen(0, Accepting("a", 0.0).(redisUp := false), Retry(0, true))
    + AloneSteps(1, Answered, Accepting("b", cfg.recoveryTimeout))
  }

  lemma AcceptedThenForced(cfg: Config, w: World, t: nat, at: real) returns (w': World)
    requires Waiting(cfg, w, t, at)
    ensures Leads(cfg, w, RunThen(t, Accepting("a", at).(redisUp := false), Retry(0, true)), w')
    ensures Waiting(cfg, w', t + 1, at + cfg.recoveryTimeout)
    ensures w'.state.calls == w.state.calls + [ProviderCall(0, Accepted("a"))]
  {
    var run := Accepting("a", at).(redisUp := false);
    SettledTables(cfg, w.state, t, run);
    RequeuedAlone(Settled(cfg, w.state, t, run).tables.deliveries[0]);
    w' := RunsOn(cfg, w, t, run, Retry(0, true), at);
  }

  /** The steps by which a SENT delivery or an acknowledged message could come back. */
  predicate BringsBack(step: Step) {
    step.Crash? || step.Abort? || step.ManualReplay? || step.AutoReplay? || step.DispatchDue?
  }

  lemma NothingBroughtBack(cfg: Config)
    ensures forall k :: 0 <= k < |ForcedSendsTwice(cfg)| ==> !BringsBack(ForcedSendsTwice(cfg)[k])
  {
    var steps := ForcedSendsTwice(cfg);
    assert |steps| == 11 && steps[0] == Submit(REQUEST, 0.0);
    assert steps[1..7] == RunThen(0, Accepting("a", 0.0).(redisUp := false), Retry(0, true));
    assert steps[7..] == AloneSteps(1, Answered, Accepting("b", cfg.recoveryTimeout));
  }

  /** With any settings and no replay, crash, exception out of a task or dispatched retry. */
  lemma SentTwiceAfterRedisFailure(cfg: Config)
    ensures var s := Exec(cfg, Initial(ACCOUNTS), ForcedSendsTwice(cfg));
      CanHappen(cfg, ACCOUNTS, ForcedSendsTwice(cfg), s) && TwiceSent(s)
    ensures forall k :: 0 <= k < |ForcedSendsTwice(cfg)| ==> !BringsBack(ForcedSendsTwice(cfg)[k])
  {
    var w0, submit := World(Initial(ACCOUNTS), map[]), [Submit(REQUEST, 0.0)];
    var first := RunThen(0, Accepting("a", 0.0).(redisUp := false), Retry(0, true));
    var again := AloneSteps(1, Answered, Accepting("b", cfg.recoveryTimeout));
    var w1 := FirstSubmission(cfg);
    var w2 := AcceptedThenForced(cfg, w1, 0, 0.0);
    var w3 := SentAgain(cfg, w2, 1, cfg.recoveryTimeout);
    LeadsThrice(cfg, w0, submit, w1, first, w2, again, w3);
    LeadsHappens(cfg, ACCOUNTS, ForcedSendsTwice(cfg), w3);
    NothingBroughtBack(cfg);
  }

  // ---- A crash after the provider's answer ----

  /** The worker that holds the acceptance crashes, and the message is delivered again. */
  function CrashSendsTwice(cfg: Config): seq<Step> {
    [Submit(REQUEST, 0.0)] + [Load(0), BeginSending(0, 0.0)] + [AnswerCall(0, Accepted("a")), Crash(0)]
    + AloneSteps(0, Answered, Accepting("b", cfg.recoveryTimeout))
  }

  /** The delivery is with the provider, and the breaker has heard of nothing but this check. */
  ghost predicate AtProvider(w: World) {
    && |w.state.tables.deliveries| == 1
    && var row := w.state.tables.deliveries[0];
       && row.id == 0 == row.document && ActiveAccount(w.state.tables, row.account)
       && |w.state.tasks| == 1 && w.state.tasks[0].message.delivery == Some(0)
       && w.state.tasks[0].phase == Calling(row)
       && w.Past(row.account) == [Checked(0.0)]
       && w.state.calls == []
  }

  lemma BeginsFirst(cfg: Config) returns (w: World)
    ensures Leads(cfg, World(Initial(ACCOUNTS), map[]), [Submit(REQUEST, 0.0)] + [Load(0), BeginSending(0, 0.0)], w)
    ensures AtProvider(w)
  {
    var w1 := FirstSubmission(cfg);
    OldFailuresAdmit(cfg, [], 0.0);
    w := LeadsTwo(cfg, w1, Load(0), BeginSending(0, 0.0));
    LeadsThen(cfg, World(Initial(ACCOUNTS), map[]), [Submit(REQUEST, 0.0)], w1, [Load(0), BeginSending(0, 0.0)], w);
  }

  lemma CrashesHolding(cfg: Config, w: World) returns (w': World)
    requires AtProvider(w)
    ensures Leads(cfg, w, [AnswerCall(0, Accepted("a")), Crash(0)], w')
    ensures Ready(cfg, w', 0, cfg.recoveryTimeout)
    ensures w'.state.calls == [ProviderCall(0, Accepted("a"))]
  {
    w' := LeadsTwo(cfg, w, AnswerCall(0, Accepted("a")), Crash(0));
    assert w'.Past(w.state.tables.deliveries[0].account) == [Checked(0.0)];
  }

  lemma ReachCrashSentTwice(cfg: Config) returns (w: World)
    ensures Leads(cfg, World(Initial(ACCOUNTS), map[]), CrashSendsTwice(cfg), w) && TwiceSent(w.state)
  {
    var w1 := BeginsFirst(cfg);
    var w2 := CrashesHolding(cfg, w1);
    w := SentAgain(cfg, w2, 0, cfg.recoveryTimeout);
    LeadsThrice(cfg, World(Initial(ACCOUNTS), map[]), [Submit(REQUEST, 0.0)] + [Load(0), BeginSending(0, 0.0)], w1,
                [AnswerCall(0, Accepted("a")), Crash(0)], w2,
                AloneSteps(0, Answered, Accepting("b", cfg.recoveryTimeout)), w);
  }

  /** The answer dies with the worker: the row has no provider id when the redelivered run calls again. */
  lemma SentTwiceAfterCrash(cfg: Config)
    ensures var s := Exec(cfg, Initial(ACCOUNTS), CrashSendsTwice(cfg));
      CanHappen(cfg, ACCOUNTS, CrashSendsTwice(cfg), s) && TwiceSent(s)
  {
    var w := ReachCrashSentTwice(cfg);
    LeadsHappens(cfg, ACCOUNTS, CrashSendsTwice(cfg), w);
  }

  // ---- A retry dispatched twice ----

  /** One transient error, its retry dispatched twice, and both messages are answered, one after the other. */
  function DispatchSendsTwice(cfg: Config): seq<Step> {
    var now := cfg.recoveryTimeout;
    FirstTwinSteps(cfg) + AloneSteps(2, Answered, Accepting("b", now + now))
  }

  function FirstTwinSteps(cfg: Config): seq<Step> {
    TwinSteps() + AloneSteps(1, Answered, Accepting("a", cfg.recoveryTimeout))
  }

  /** The first of two queued messages is dealt with; the second one waits a timeout. */
  lemma FirstTwinSent(cfg: Config, w: World, row: Delivery, now: real) returns (w': World)
    requires Twins(w, Queued, Queued, row, now - cfg.recoveryTimeout)
    ensures Leads(cfg, w, AloneSteps(1, Answered, Accepting("a", now)), w')
    ensures Ready(cfg, w', 2, now + cfg.recoveryTimeout)
    ensures w'.state.calls == w.state.calls + [ProviderCall(0, Accepted("a"))]
  {
    SettledTables(cfg, w.state, 1, Accepting("a", now));
    w' := AnsweredLeads(cfg, w, 1, Accepting("a", now), now);
    assert forall k :: 0 <= k < |Reports(Answered, Accepting("a", now))| ==>
      Reports(Answered, Accepting("a", now))[k].at == now;
  }

  lemma ReachFirstTwinSent(cfg: Config) returns (w: World)
    requires cfg.maxAttempts >= 1
    ensures Leads(cfg, World(Initial(ACCOUNTS), map[]), FirstTwinSteps(cfg), w)
    ensures Ready(cfg, w, 2, cfg.recoveryTimeout + cfg.recoveryTimeout)
    ensures w.state.calls == [ProviderCall(0, TIMEOUT), ProviderCall(0, Accepted("a"))]
  {
    var now := cfg.recoveryTimeout;
    var w1, row := ReachTwins(cfg);
    w := FirstTwinSent(cfg, w1, row, now);
    LeadsThen(cfg, World(Initial(ACCOUNTS), map[]), TwinSteps(), w1, AloneSteps(1, Answered, Accepting("a", now)), w);
  }

  lemma ReachDispatchSentTwice(cfg: Config) returns (w: World)
    requires cfg.maxAttempts >= 1
    ensures Leads(cfg, World(Initial(ACCOUNTS), map[]), DispatchSendsTwice(cfg), w)
    ensures TwiceSent(w.state) && |w.state.calls| == 3
  {
    var now := cfg.recoveryTimeout;
    var w2 := ReachFirstTwinSent(cfg);
    w := SentAgain(cfg, w2, 2, now + now);
    LeadsThen(cfg, World(Initial(ACCOUNTS), map[]), FirstTwinSteps(cfg), w2,
              AloneSteps(2, Answered, Accepting("b", now + now)), w);
  }

  /** With one retry allowed these are three calls, more than max_attempts + 1, with no crash, force or replay. */
  lemma SentTwiceByDispatch(cfg: Config)
    requires cfg.maxAttempts >= 1
    ensures var s := Exec(cfg, Initial(ACCOUNTS), DispatchSendsTwice(cfg));
      CanHappen(cfg, ACCOUNTS, DispatchSendsTwice(cfg), s) && TwiceSent(s) && |s.calls| == 3
  {
    var w := ReachDispatchSentTwice(cfg);
    LeadsHappens(cfg, ACCOUNTS, DispatchSendsTwice(cfg), w);
  }
}
