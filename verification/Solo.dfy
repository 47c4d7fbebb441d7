/** Building blocks for runs of a single delivery that the breaker allows: each starts a timeout after the last. */
module Solo {
  import opened Core
  import opened Breaker
  import opened Store
  import opened Worker
  import opened Documents
  import opened System
  import opened Crashes
  import opened Ledgers
  import opened Admission

  function Answering(answer: Answer, at: real): RunInput {
    RunInput(at, true, true, answer, true, at, 0.0)
  }

  function Failing(at: real): RunInput {
    Answering(TransientError("timeout"), at)
  }

  function Accepting(id: string, at: real): RunInput {
    Answering(Accepted(id), at)
  }

  /** The only delivery, of an active account, with a message in the queue. */
  predicate Queueing(s: State, t: nat) {
    && QueuedFor(s, t, 0)
    && |s.tables.deliveries| == 1 && s.tables.deliveries[0].document == 0
    && ActiveAccount(s.tables, s.tables.deliveries[0].account)
  }

  /** The same, and everything the breaker has been told is a timeout old by time `at`. */
  ghost predicate Ready(cfg: Config, w: World, t: nat, at: real) {
    && Queueing(w.state, t)
    && var past := w.Past(w.state.tables.deliveries[0].account);
       forall i :: 0 <= i < |past| ==> past[i].at <= at - cfg.recoveryTimeout
  }

  /** The same, and no message came after it. */
  ghost predicate Waiting(cfg: Config, w: World, t: nat, at: real) {
    Ready(cfg, w, t, at) && |w.state.tasks| == t + 1
  }

  /** One run to its end, and what it calls for next. */
  function RunThen(t: nat, run: RunInput, next: Step): seq<Step> {
    AloneSteps(t, Answered, run) + [Ack(t), next]
  }

  /** The state after a run and its acknowledgement. */
  function Settled(cfg: Config, s: State, t: nat, run: RunInput): State
    requires Queueing(s, t)
  {
    var sending := s.tables.deliveries[0].MarkedSending(run.checkedAt);
    State(LastCommit(cfg, s.tables, 0, Answered, run),
          AtPhase(s, t, Acked),
          s.history + [Attempt(sending, run.answer, run.redisUp, run.answeredAt, run.jitter)],
          s.calls + [ProviderCall(0, run.answer)])
  }

  /** What the run's last commit left. */
  lemma SettledTables(cfg: Config, s: State, t: nat, run: RunInput)
    requires Queueing(s, t)
    ensures var row := s.tables.deliveries[0].MarkedSending(run.checkedAt);
      var o := Settle(cfg, row, run.answer, run.redisUp, run.answeredAt, run.jitter);
      var tables := Settled(cfg, s, t, run).tables;
      && tables.deliveries == [o.row]
      && tables.dlq == Appended(s.tables.dlq, o.deadLetter)
      && tables.accounts == s.tables.accounts
  {
    var tables := Settled(cfg, s, t, run).tables;
    assert |tables.deliveries| == 1;
  }

  /** Run alone at a time when the breaker has nothing recent to go by, the task gets to the provider. */
  lemma AnsweredPlays(cfg: Config, w: World, t: nat, run: RunInput, at: real)
    requires Ready(cfg, w, t, at) && run == Answering(run.answer, at).(redisUp := run.redisUp)
    ensures var steps, account := AloneSteps(t, Answered, run), w.state.tables.deliveries[0].account;
      var w' := Play(cfg, w, steps);
      && Playable(cfg, w, steps)
      && w'.state == Settled(cfg, w.state, t, run).(tasks := AtPhase(w.state, t, Ended))
      && w'.Past(account) == w.Past(account) + Reports(Answered, run)
  {
    var past := w.Past(w.state.tables.deliveries[0].account);
    OldFailuresAdmit(cfg, past, at);
    assert cfg.recoveryTimeout >= 0.0 && NotBefore(past, at);
    AllowedAloneIff(cfg, w, t, 0, Answered, run);
    PlayIsExec(cfg, w, AloneSteps(t, Answered, run));
    AnsweredAlone(cfg, w.state, t, 0, run);
  }

  lemma AckLeads(cfg: Config, w: World, t: nat, next: Step, s: State)
    requires t < |w.state.tasks| && w.state.tasks[t].phase.Ended?
    requires s == w.state.(tasks := AtPhase(w.state, t, Acked)) && IsPublishing(next) && Enabled(cfg, s, next)
    ensures Leads(cfg, w, [Ack(t), next], w.(state := Next(cfg, s, next)))
  {
    PlayTwo(cfg, w, Ack(t), next);
    PlayLeads(cfg, w, [Ack(t), next]);
  }

  /** The same, as a trace. */
  lemma AnsweredLeads(cfg: Config, w: World, t: nat, run: RunInput, at: real) returns (w': World)
    requires Ready(cfg, w, t, at) && run == Answering(run.answer, at).(redisUp := run.redisUp)
    ensures Leads(cfg, w, AloneSteps(t, Answered, run), w')
    ensures w'.state == Settled(cfg, w.state, t, run).(tasks := AtPhase(w.state, t, Ended))
    ensures var account := w.state.tables.deliveries[0].account;
      w'.Past(account) == w.Past(account) + Reports(Answered, run)
  {
    AnsweredPlays(cfg, w, t, run, at);
    PlayLeads(cfg, w, AloneSteps(t, Answered, run));
    w' := Play(cfg, w, AloneSteps(t, Answered, run));
  }

  lemma SettledLeads(cfg: Config, w: World, t: nat, run: RunInput, next: Step, at: real) returns (w': World)
    requires Ready(cfg, w, t, at) && run == Answering(run.answer, at).(redisUp := run.redisUp)
    requires IsPublishing(next) && Enabled(cfg, Settled(cfg, w.state, t, run), next)
    ensures Leads(cfg, w, RunThen(t, run, next), w')
    ensures w'.state == Next(cfg, Settled(cfg, w.state, t, run), next)
    ensures var account := w.state.tables.deliveries[0].account;
      w'.Past(account) == w.Past(account) + Reports(Answered, run)
  {
    var w1 := AnsweredLeads(cfg, w, t, run, at);
    assert AtPhase(w1.state, t, Acked) == AtPhase(w.state, t, Acked);
    w' := w1.(state := Next(cfg, Settled(cfg, w.state, t, run), next));
    AckLeads(cfg, w1, t, next, Settled(cfg, w.state, t, run));
    LeadsThen(cfg, w, AloneSteps(t, Answered, run), w1, [Ack(t), next], w');
  }

  /** `next` publishes one more message for the delivery and changes nothing that matters here. */
  ghost predicate Continues(cfg: Config, s: State, next: Step) {
    && IsPublishing(next) && Enabled(cfg, s, next)
    && |s.tables.deliveries| == 1
    && Published(s, next).1 == [Message(Some(0), "")]
    && |Published(s, next).0.deliveries| == 1
    && SameIdentity(Published(s, next).0.deliveries[0], s.tables.deliveries[0])
    && Published(s, next).0.accounts == s.tables.accounts
  }

  lemma OneMoreTask(cfg: Config, s: State, t: nat, next: Step)
    requires |s.tasks| == t + 1 && Continues(cfg, s, next)
    requires s.tables.deliveries[0].id == 0 && s.tables.deliveries[0].document == 0
    requires ActiveAccount(s.tables, s.tables.deliveries[0].account)
    ensures Queueing(Next(cfg, s, next), t + 1) && |Next(cfg, s, next).tasks| == t + 2
    ensures Next(cfg, s, next).tables.deliveries[0].account == s.tables.deliveries[0].account
    ensures Next(cfg, s, next).calls == s.calls
  {
  }

  lemma WaitsAgain(cfg: Config, w: World, t: nat, run: RunInput, at: real, w': World)
    requires Waiting(cfg, w, t, at) && run == Answering(run.answer, at).(redisUp := run.redisUp)
    requires Queueing(w'.state, t + 1) && |w'.state.tasks| == t + 2
    requires w'.state.tables.deliveries[0].account == w.state.tables.deliveries[0].account
    requires var account := w.state.tables.deliveries[0].account;
      w'.Past(account) == w.Past(account) + Reports(Answered, run)
    ensures Waiting(cfg, w', t + 1, at + cfg.recoveryTimeout)
  {
    assert forall k :: 0 <= k < |Reports(Answered, run)| ==> Reports(Answered, run)[k].at == at;
  }

  /** One run and one more message; a timeout later the next run can start. */
  lemma RunsOn(cfg: Config, w: World, t: nat, run: RunInput, next: Step, at: real) returns (w': World)
    requires Waiting(cfg, w, t, at) && run == Answering(run.answer, at).(redisUp := run.redisUp)
    requires Continues(cfg, Settled(cfg, w.state, t, run), next)
    ensures Leads(cfg, w, RunThen(t, run, next), w')
    ensures w'.state == Next(cfg, Settled(cfg, w.state, t, run), next)
    ensures Waiting(cfg, w', t + 1, at + cfg.recoveryTimeout)
    ensures w'.state.calls == w.state.calls + [ProviderCall(0, run.answer)]
  {
    w' := SettledLeads(cfg, w, t, run, next, at);
    SettledTables(cfg, w.state, t, run);
    OneMoreTask(cfg, Settled(cfg, w.state, t, run), t, next);
    WaitsAgain(cfg, w, t, run, at, w');
  }

  /** While retries are left: a transient error, and the dispatch of the retry. */
  lemma RetriedOnce(cfg: Config, w: World, t: nat, at: real) returns (w': World)
    requires Waiting(cfg, w, t, at) && w.state.tables.deliveries[0].retryCount < cfg.maxAttempts
    ensures Leads(cfg, w, RunThen(t, Failing(at), DispatchDue(0, at)), w')
    ensures Waiting(cfg, w', t + 1, at + cfg.recoveryTimeout) && w'.state.tables.dlq == w.state.tables.dlq
    ensures var row := w'.state.tables.deliveries[0];
      && row.retryCount == w.state.tables.deliveries[0].retryCount + 1
      && row.account == w.state.tables.deliveries[0].account
      && row.status == PENDING && row.nextRetryAt == Some(at)
    ensures Retries(cfg, w'.state, 0) == Retries(cfg, w.state, 0) + 1
    ensures w'.state.calls == w.state.calls + [ProviderCall(0, Failing(at).answer)]
  {
    SettledTables(cfg, w.state, t, Failing(at));
    w' := RunsOn(cfg, w, t, Failing(at), DispatchDue(0, at), at);
    var sending := w.state.tables.deliveries[0].MarkedSending(at);
    CountsAfter(cfg, w.state.history, Some(Attempt(sending, Failing(at).answer, true, at, 0.0)), 0);
  }

  const REQUEST := SubmitRequest(1, 7, 3, "ff")
  const ACCOUNTS := map[3 := Account(1, true)]

  lemma FirstSubmission(cfg: Config) returns (w': World)
    ensures Leads(cfg, World(Initial(ACCOUNTS), map[]), [Submit(REQUEST, 0.0)], w')
    ensures Waiting(cfg, w', 0, 0.0) && w'.state.tables.dlq == [] && w'.state.tables.deliveries[0].retryCount == 0
    ensures w'.state.history == [] && w'.state.calls == [] && w'.logs == map[]
    ensures w'.state.tables.deliveries[0].status == PENDING && w'.state.tables.deliveries[0].nextRetryAt.None?
  {
    var w, step := World(Initial(ACCOUNTS), map[]), Submit(REQUEST, 0.0);
    w' := Advance(cfg, w, step);
    assert SubmitReplyTo(w.state.tables, REQUEST) == Accepted202(0);
    assert IsTrace(cfg, [w, w'], [step]);
  }
}
