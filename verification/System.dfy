/**
 * The delivery system with any number of workers: every step of every run of send_document, the
 * endpoints, the sweep, crashes and redelivery, interleaved freely. The worker steps are the commits
 * of module Worker. What the provider answers, what the breaker decides, whether an account is
 * active, who crashes and when a due retry is dispatched is left to the environment.
 */
module System {
  import opened Core
  import opened Backoff
  import opened Deliveries
  import opened Store
  import opened Worker
  import opened Documents
  import opened Dlq

  /** Where a message is; a worker keeps the row it loaded in memory until its last commit. */
  datatype Phase =
    | Queued
    | Loaded(row: Delivery)
    | Calling(row: Delivery)
    | Replied(row: Delivery, answer: Answer)
    | Ended
    | Acked
  {
    predicate Live() {
      Queued? || Active()
    }

    predicate Active() {
      Loaded? || Calling? || Replied?
    }
  }

  datatype Task = Task(message: Message, phase: Phase)

  /** A commit that closed a run: an answered provider call, or a refusal by the open breaker. */
  datatype RunRecord =
    | Attempt(row: Delivery, answer: Answer, redisUp: bool, now: real, jitter: real)
    | Refusal(row: Delivery, now: real, jitter: real)

  /** A call the provider has answered. */
  datatype ProviderCall = ProviderCall(delivery: nat, answer: Answer)

  /** `history` and `calls` record the closing commits and the provider's answers, for stating totals. */
  datatype State = State(tables: Tables, tasks: seq<Task>, history: seq<RunRecord>, calls: seq<ProviderCall>)

  datatype Step =
    | Submit(req: SubmitRequest, now: real)
    | Retry(document: nat, force: bool)
    | ManualReplay(entry: nat, request: Request, now: real)
    | AutoReplay(broken: set<nat>, now: real)
    | DispatchDue(delivery: nat, now: real)
    | Load(t: nat)
    | FailInactive(t: nat, now: real)
    | RejectOpen(t: nat, now: real, jitter: real)
    | BeginSending(t: nat, now: real)
    | AnswerCall(t: nat, answer: Answer)
    | Finish(t: nat, redisUp: bool, now: real, jitter: real)
    | Abort(t: nat)
    | Ack(t: nat)
    | Crash(t: nat)

  predicate IsLoaded(s: State, t: nat) {
    t < |s.tasks| && s.tasks[t].phase.Loaded?
  }

  predicate IsCalling(s: State, t: nat) {
    t < |s.tasks| && s.tasks[t].phase.Calling?
  }

  predicate IsReplied(s: State, t: nat) {
    t < |s.tasks| && s.tasks[t].phase.Replied?
  }

  /** Abort is an exception out of the task at the guard or at the provider factory. */
  predicate Enabled(cfg: Config, s: State, step: Step) {
    match step
    case Submit(_, _) => true
    case Retry(_, force) => force
    case ManualReplay(_, _, _) => true
    case AutoReplay(_, _) => true
    case DispatchDue(d, now) =>
      && d < |s.tables.deliveries|
      && s.tables.deliveries[d].status == PENDING
      && s.tables.deliveries[d].nextRetryAt.Some?
      && s.tables.deliveries[d].nextRetryAt.value <= now
    case Load(t) => t < |s.tasks| && s.tasks[t].phase.Queued?
    case FailInactive(t, _) => IsLoaded(s, t)
    case RejectOpen(t, _, jitter) =>
      IsLoaded(s, t) && JitterInRange(cfg, s.tasks[t].phase.row.retryCount, jitter)
    case BeginSending(t, _) => IsLoaded(s, t)
    case AnswerCall(t, _) => IsCalling(s, t)
    case Finish(t, _, _, jitter) =>
      IsReplied(s, t) && JitterInRange(cfg, s.tasks[t].phase.row.retryCount, jitter)
    case Abort(t) => IsLoaded(s, t) || IsCalling(s, t)
    case Ack(t) => t < |s.tasks| && s.tasks[t].phase.Ended?
    case Crash(t) => t < |s.tasks| && (s.tasks[t].phase.Active() || s.tasks[t].phase.Ended?)
  }

  function Publish(s: State, messages: seq<Message>): State {
    s.(tasks := s.tasks + seq(|messages|, k requires 0 <= k < |messages| => Task(messages[k], Queued)))
  }

  /** A step of an endpoint, of the sweep or of the dispatcher, as opposed to a worker's. */
  predicate IsPublishing(step: Step) {
    step.Submit? || step.Retry? || step.ManualReplay? || step.AutoReplay? || step.DispatchDue?
  }

  /** The tables such a step leaves, and the messages it publishes. */
  function Published(s: State, step: Step): (Tables, seq<Message>)
    requires IsPublishing(step)
  {
    var t := s.tables;
    match step
    case Submit(req, now) => (Submitted(t, req, now), SubmitMessages(t, req))
    case Retry(document, _) =>
      (t.(deliveries := Documents.Requeued(t.deliveries, document)), Resends(FailedOf(t.deliveries, document)))
    case ManualReplay(entry, request, now) =>
      var desk := ReplayOne(Desk(t.dlq, []), entry, request, now);
      (t.(dlq := desk.entries), desk.queue)
    case AutoReplay(broken, now) =>
      var desk := Sweep(Desk(t.dlq, []), broken, now);
      (t.(dlq := desk.entries), desk.queue)
    case DispatchDue(d, _) => (t, [Message(Some(d), "")])
  }

  /** What a worker's step does: the task's next phase, and what it commits. */
  datatype Effect = Effect(
    phase: Phase,
    row: Option<Delivery>,
    record: Option<RunRecord>,
    deadLetter: Option<DlqEntry>,
    audit: Option<AuditEvent>,
    call: Option<ProviderCall>)

  function Moves(phase: Phase): Effect {
    Effect(phase, None, None, None, None, None)
  }

  function WorkerEffect(cfg: Config, s: State, step: Step): Effect
    requires Enabled(cfg, s, step) && !IsPublishing(step)
  {
    var task := s.tasks[step.t];
    match step
    case Load(_) =>
      var d := task.message.delivery;
      Moves(if d.Some? && d.value < |s.tables.deliveries| then Loaded(s.tables.deliveries[d.value]) else Ended)
    case FailInactive(_, now) => Moves(Ended).(row := Some(RefusedInactive(task.phase.row, now)))
    case RejectOpen(_, now, jitter) =>
      Moves(Ended).(row := Some(RefusedByBreaker(task.phase.row, now, jitter)),
                    record := Some(Refusal(task.phase.row, now, jitter)))
    case BeginSending(_, now) =>
      var row := task.phase.row.MarkedSending(now);
      Moves(Calling(row)).(row := Some(row))
    case AnswerCall(_, answer) =>
      Moves(Replied(task.phase.row, answer)).(call := Some(ProviderCall(task.phase.row.id, answer)))
    case Finish(_, redisUp, now, jitter) =>
      var o := Settle(cfg, task.phase.row, task.phase.answer, redisUp, now, jitter);
      Effect(Ended, Some(o.row), Some(Attempt(task.phase.row, task.phase.answer, redisUp, now, jitter)),
             o.deadLetter, Some(o.Audit()), None)
    case Abort(_) => Moves(Ended)
    case Ack(_) => Moves(Acked)
    case Crash(_) => Moves(Queued)
  }

  function Appended<T>(s: seq<T>, x: Option<T>): seq<T> {
    if x.Some? then s + [x.value] else s
  }

  function Perform(s: State, t: nat, e: Effect): State
    requires t < |s.tasks|
  {
    State(
      (if e.row.Some? then s.tables.WithDelivery(e.row.value) else s.tables)
        .(dlq := Appended(s.tables.dlq, e.deadLetter), audit := Appended(s.tables.audit, e.audit)),
      s.tasks[t := s.tasks[t].(phase := e.phase)],
      Appended(s.history, e.record),
      Appended(s.calls, e.call))
  }

  /** The effect of one step; a step that is not enabled changes nothing. */
  function Next(cfg: Config, s: State, step: Step): State {
    if !Enabled(cfg, s, step) then s
    else if IsPublishing(step) then
      var (tables, messages) := Published(s, step);
      Publish(s, messages).(tables := tables)
    else Perform(s, step.t, WorkerEffect(cfg, s, step))
  }

  /** Every list of steps is a run. */
  function Exec(cfg: Config, s: State, steps: seq<Step>): State
    decreases |steps|
  {
    if steps == [] then s else Exec(cfg, Next(cfg, s, steps[0]), steps[1..])
  }

  function Initial(accounts: map<nat, Account>): State {
    State(Tables(accounts, [], [], [], []), [], [], [])
  }

  lemma {:induction false} ExecSplit(cfg: Config, s: State, first: seq<Step>, rest: seq<Step>)
    ensures Exec(cfg, s, first + rest) == Exec(cfg, Exec(cfg, s, first), rest)
    decreases |first|
  {
    if first == [] {
      assert first + rest == rest;
    } else {
      assert (first + rest)[0] == first[0] && (first + rest)[1..] == first[1..] + rest;
      ExecSplit(cfg, Next(cfg, s, first[0]), first[1..], rest);
    }
  }

  lemma ExecOne(cfg: Config, s: State, a: Step)
    ensures Exec(cfg, s, [a]) == Next(cfg, s, a)
  {
    assert [a][1..] == [];
    assert Exec(cfg, Next(cfg, s, a), []) == Next(cfg, s, a);
  }

  lemma ExecTwo(cfg: Config, s: State, a: Step, b: Step)
    ensures Exec(cfg, s, [a, b]) == Next(cfg, Next(cfg, s, a), b)
  {
    assert [a, b][1..] == [b];
    ExecOne(cfg, Next(cfg, s, a), b);
  }

  lemma ExecThree(cfg: Config, s: State, a: Step, b: Step, c: Step)
    ensures Exec(cfg, s, [a, b, c]) == Next(cfg, Next(cfg, Next(cfg, s, a), b), c)
  {
    assert [a, b, c][1..] == [b, c];
    ExecTwo(cfg, Next(cfg, s, a), b, c);
  }

  lemma ExecSnoc(cfg: Config, s: State, steps: seq<Step>, k: nat)
    requires k < |steps|
    ensures Exec(cfg, s, steps[..k + 1]) == Next(cfg, Exec(cfg, s, steps[..k]), steps[k])
  {
    assert steps[..k + 1] == steps[..k] + [steps[k]];
    ExecSplit(cfg, s, steps[..k], [steps[k]]);
    ExecOne(cfg, Exec(cfg, s, steps[..k]), steps[k]);
  }

  lemma ExecFour(cfg: Config, s: State, a: Step, b: Step, c: Step, d: Step)
    ensures Exec(cfg, s, [a, b, c, d]) == Next(cfg, Next(cfg, Next(cfg, Next(cfg, s, a), b), c), d)
  {
    assert [a, b, c, d][1..] == [b, c, d];
    ExecThree(cfg, Next(cfg, s, a), b, c, d);
  }

  /** Rows sit at their ids, and a worker's copy belongs to the delivery of its message. */
  ghost predicate WellFormed(s: State) {
    && RowsInPlace(s.tables)
    && forall t :: 0 <= t < |s.tasks| && s.tasks[t].phase.Active() ==>
         var row := s.tasks[t].phase.row;
         && row.id < |s.tables.deliveries|
         && s.tasks[t].message.delivery == Some(row.id)
         && (!s.tasks[t].phase.Loaded? ==> row.status == SENDING)
  }

  /** The parts of a row no step ever changes. */
  predicate SameIdentity(a: Delivery, b: Delivery) {
    a.id == b.id && a.tenant == b.tenant && a.document == b.document && a.account == b.account
  }

  /** A retry was scheduled by this closing commit. */
  predicate Schedules(cfg: Config, r: RunRecord) {
    r.Refusal? || (r.answer.IsTransientError() && r.redisUp && ShouldRetry(cfg, r.row.retryCount))
  }

  /** What all effects of worker steps have in common. */
  ghost predicate Sound(cfg: Config, s: State, t: nat, e: Effect) {
    && t < |s.tasks|
    && (e.row.Some? || e.record.Some? ==> s.tasks[t].phase.Active())
    && (e.row.Some? ==>
          var row := s.tasks[t].phase.row;
          && SameIdentity(e.row.value, row)
          && e.row.value.retryCount
             == row.retryCount + if e.record.Some? && Schedules(cfg, e.record.value) then 1 else 0)
    && (e.record.Some? ==> e.row.Some? && e.record.value.row == s.tasks[t].phase.row)
    && (e.phase.Active() ==>
          var d := s.tasks[t].message.delivery;
          && (e.row.Some? ==> e.phase.row == e.row.value && e.phase.row.status == SENDING)
          && (e.row.None? && e.phase.Loaded? ==>
                d.Some? && d.value < |s.tables.deliveries| && e.phase.row == s.tables.deliveries[d.value])
          && (e.row.None? && !e.phase.Loaded? ==>
                && s.tasks[t].phase.Active() && !s.tasks[t].phase.Loaded?
                && e.phase.row == s.tasks[t].phase.row))
  }

  lemma WorkerEffectSound(cfg: Config, s: State, step: Step)
    requires Enabled(cfg, s, step) && !IsPublishing(step)
    ensures Sound(cfg, s, step.t, WorkerEffect(cfg, s, step))
  {
  }

  /** What all publishing steps have in common: rows stay, but for failed ones requeued and new ones added. */
  ghost predicate Grown(before: seq<Delivery>, after: seq<Delivery>) {
    && |after| >= |before|
    && (forall i :: 0 <= i < |before| ==> after[i] == before[i] || after[i] == before[i].Requeued())
    && (forall i :: |before| <= i < |after| ==> after[i].id == i && after[i].retryCount == 0)
  }

  lemma PublishedGrows(s: State, step: Step)
    requires IsPublishing(step)
    ensures Grown(s.tables.deliveries, Published(s, step).0.deliveries)
  {
  }

  lemma PublishKeepsWellFormed(s: State, tables: Tables, messages: seq<Message>)
    requires WellFormed(s) && Grown(s.tables.deliveries, tables.deliveries)
    ensures WellFormed(Publish(s, messages).(tables := tables))
  {
  }

  lemma PerformKeepsWellFormed(cfg: Config, s: State, t: nat, e: Effect)
    requires WellFormed(s) && Sound(cfg, s, t, e)
    ensures WellFormed(Perform(s, t, e))
    ensures |Perform(s, t, e).tables.deliveries| == |s.tables.deliveries|
  {
  }

  lemma StepKeepsWellFormed(cfg: Config, s: State, step: Step)
    requires WellFormed(s)
    ensures WellFormed(Next(cfg, s, step))
    ensures |Next(cfg, s, step).tables.deliveries| >= |s.tables.deliveries|
  {
    if Enabled(cfg, s, step) {
      if IsPublishing(step) {
        PublishedGrows(s, step);
        PublishKeepsWellFormed(s, Published(s, step).0, Published(s, step).1);
      } else {
        WorkerEffectSound(cfg, s, step);
        PerformKeepsWellFormed(cfg, s, step.t, WorkerEffect(cfg, s, step));
      }
    }
  }

  lemma {:induction false} RunKeepsWellFormed(cfg: Config, s: State, steps: seq<Step>)
    requires WellFormed(s)
    ensures WellFormed(Exec(cfg, s, steps))
    decreases |steps|
  {
    if steps != [] {
      StepKeepsWellFormed(cfg, s, steps[0]);
      RunKeepsWellFormed(cfg, Next(cfg, s, steps[0]), steps[1..]);
    }
  }
}
