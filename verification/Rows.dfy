/** What the rows of every reachable state say, and when a row can be dispatched. */
module Rows {
  import opened Core
  import opened Deliveries
  import opened Store
  import opened Worker
  import opened Documents
  import opened Dlq
  import opened System

  // ---- Dispatch ----

  /** A commit that schedules a retry: a refusal by the breaker, or a transient error with retries left. */
  predicate SchedulesRetry(cfg: Config, s: State, step: Step) {
    && Enabled(cfg, s, step)
    && match step
       case RejectOpen(_, _, _) => true
       case Finish(t, redisUp, _, _) =>
         && redisUp && s.tasks[t].phase.answer.IsTransientError()
         && s.tasks[t].phase.row.retryCount < cfg.maxAttempts
       case _ => false
  }

  /** A scheduled retry can be dispatched, from the end of its wait on and not before. */
  lemma ScheduledIsDueIff(cfg: Config, s: State, step: Step, at: real)
    requires WellFormed(s) && SchedulesRetry(cfg, s, step)
    ensures var d := s.tasks[step.t].phase.row.id;
      Enabled(cfg, Next(cfg, s, step), DispatchDue(d, at)) <==> at >= step.now + step.jitter
  {
  }

  /** A run that ends any other way leaves its delivery out of the dispatcher's reach. */
  lemma ClosedIsNotDue(cfg: Config, s: State, step: Step, at: real)
    requires WellFormed(s) && Enabled(cfg, s, step) && !SchedulesRetry(cfg, s, step)
    requires step.FailInactive? || step.BeginSending? || step.Finish?
    ensures !Enabled(cfg, Next(cfg, s, step), DispatchDue(s.tasks[step.t].phase.row.id, at))
  {
  }

  /** A forced retry publishes its own message; the dispatcher does not publish a second one. */
  lemma ForcedRetryIsNotDue(cfg: Config, s: State, document: nat, d: nat, at: real)
    requires d < |s.tables.deliveries|
    requires s.tables.deliveries[d].document == document && s.tables.deliveries[d].status == FAILED
    ensures var s' := Next(cfg, s, Retry(document, true));
      && s'.tables.deliveries[d].status == PENDING
      && !Enabled(cfg, s', DispatchDue(d, at))
      && exists t :: |s.tasks| <= t < |s'.tasks| && s'.tasks[t] == Task(Message(Some(d), ""), Queued)
  {
    var s' := Next(cfg, s, Retry(document, true));
    var ids := FailedOf(s.tables.deliveries, document);
    assert FailedFor(s.tables.deliveries[d], document);
    var k :| 0 <= k < |ids| && ids[k] == d;
    assert s'.tasks[|s.tasks| + k] == Task(Message(Some(d), ""), Queued);
  }

  // ---- Whose rows they are ----

  /** The delivery belongs to a document and an account of its own tenant. */
  predicate Owned(t: Tables, row: Delivery) {
    && row.document < |t.documents| && t.documents[row.document].tenant == row.tenant
    && row.account in t.accounts && t.accounts[row.account].tenant == row.tenant
  }

  /** The dead letter names a delivery of its own tenant, and that delivery's account. */
  predicate Filed(t: Tables, e: DlqEntry) {
    && e.delivery.Some? && e.delivery.value < |t.deliveries|
    && var row := t.deliveries[e.delivery.value];
       e.tenant == row.tenant && e.account == Some(row.account)
  }

  ghost predicate WellOwned(s: State) {
    && (forall d :: 0 <= d < |s.tables.deliveries| ==> Owned(s.tables, s.tables.deliveries[d]))
    && (forall k :: 0 <= k < |s.tables.dlq| ==> Filed(s.tables, s.tables.dlq[k]))
    && (forall t :: 0 <= t < |s.tasks| && s.tasks[t].phase.Active() ==>
          var row := s.tasks[t].phase.row;
          row.id < |s.tables.deliveries| && SameIdentity(row, s.tables.deliveries[row.id]))
  }

  /** What a publishing step leaves of ownership: same accounts, more documents, the same or new owned rows. */
  ghost predicate KeepsOwners(t: Tables, t': Tables) {
    && t'.accounts == t.accounts
    && |t'.documents| >= |t.documents| && t'.documents[..|t.documents|] == t.documents
    && |t'.deliveries| >= |t.deliveries|
    && (forall d :: 0 <= d < |t.deliveries| ==> SameIdentity(t'.deliveries[d], t.deliveries[d]))
    && (forall d :: |t.deliveries| <= d < |t'.deliveries| ==> Owned(t', t'.deliveries[d]))
    && SameButReplayTimes(t.dlq, t'.dlq)
  }

  lemma PublishedKeepsOwners(s: State, step: Step)
    requires IsPublishing(step)
    ensures KeepsOwners(s.tables, Published(s, step).0)
  {
    match step {
      case Submit(req, now) =>
        SubmitReplyIff(s.tables, req);
        SubmissionLeaves(s.tables, req, now);
      case ManualReplay(entry, req, now) => ReplayOneFrame(Desk(s.tables.dlq, []), entry, req, now);
      case AutoReplay(broken, now) => SweepOverFrame(Desk(s.tables.dlq, []), Due(s.tables.dlq), broken, now);
      case _ =>
    }
  }

  lemma PublishKeepsWellOwned(s: State, t': Tables, messages: seq<Message>)
    requires WellOwned(s) && KeepsOwners(s.tables, t')
    ensures WellOwned(Publish(s, messages).(tables := t'))
  {
    var s' := Publish(s, messages).(tables := t');
    forall d | 0 <= d < |t'.deliveries|
      ensures Owned(t', t'.deliveries[d])
    {
      if d < |s.tables.deliveries| {
        var row := s.tables.deliveries[d];
        assert Owned(s.tables, row) && t'.documents[..|s.tables.documents|][row.document] == t'.documents[row.document];
      }
    }
    forall k | 0 <= k < |t'.dlq|
      ensures Filed(t', t'.dlq[k])
    {
      assert s.tables.dlq[k].(replayedAt := None) == t'.dlq[k].(replayedAt := None);
      assert Filed(s.tables, s.tables.dlq[k]);
    }
  }

  /** A worker's dead letter is filed under the row it commits. */
  ghost predicate FilesRow(e: Effect) {
    e.deadLetter.Some? ==>
      && e.row.Some? && e.deadLetter.value.delivery == Some(e.row.value.id)
      && e.deadLetter.value.tenant == e.row.value.tenant && e.deadLetter.value.account == Some(e.row.value.account)
  }

  lemma WorkerEffectFiles(cfg: Config, s: State, step: Step)
    requires WellFormed(s) && Enabled(cfg, s, step) && !IsPublishing(step)
    ensures FilesRow(WorkerEffect(cfg, s, step))
  {
    if step.Finish? {
      var phase := s.tasks[step.t].phase;
      DeadLetterClassification(cfg, phase.row, phase.answer, step.redisUp, step.now, step.jitter);
    }
  }

  lemma PerformKeepsWellOwned(cfg: Config, s: State, t: nat, e: Effect)
    requires WellFormed(s) && WellOwned(s) && Sound(cfg, s, t, e) && FilesRow(e)
    ensures WellOwned(Perform(s, t, e))
  {
  }

  lemma StepKeepsWellOwned(cfg: Config, s: State, step: Step)
    requires WellFormed(s) && WellOwned(s)
    ensures WellOwned(Next(cfg, s, step))
  {
    if Enabled(cfg, s, step) {
      if IsPublishing(step) {
        PublishedKeepsOwners(s, step);
        PublishKeepsWellOwned(s, Published(s, step).0, Published(s, step).1);
      } else {
        WorkerEffectSound(cfg, s, step);
        WorkerEffectFiles(cfg, s, step);
        PerformKeepsWellOwned(cfg, s, step.t, WorkerEffect(cfg, s, step));
      }
    }
  }

  lemma {:induction false} RunKeepsWellOwned(cfg: Config, s: State, steps: seq<Step>)
    requires WellFormed(s) && WellOwned(s)
    ensures WellOwned(Exec(cfg, s, steps))
    decreases |steps|
  {
    if steps != [] {
      StepKeepsWellFormed(cfg, s, steps[0]);
      StepKeepsWellOwned(cfg, s, steps[0]);
      RunKeepsWellOwned(cfg, Next(cfg, s, steps[0]), steps[1..]);
    }
  }

  /** In every reachable state each delivery has a document and an account, both of its own tenant. */
  lemma DeliveriesOwned(cfg: Config, accounts: map<nat, Account>, steps: seq<Step>, d: nat)
    requires d < |Exec(cfg, Initial(accounts), steps).tables.deliveries|
    ensures var t := Exec(cfg, Initial(accounts), steps).tables;
      var row := t.deliveries[d];
      && row.account in accounts && accounts[row.account].tenant == row.tenant
      && row.document < |t.documents| && t.documents[row.document].tenant == row.tenant
  {
    RunKeepsWellOwned(cfg, Initial(accounts), steps);
    RunKeepsAccounts(cfg, Initial(accounts), steps);
    assert Owned(Exec(cfg, Initial(accounts), steps).tables, Exec(cfg, Initial(accounts), steps).tables.deliveries[d]);
  }

  lemma StepKeepsAccounts(cfg: Config, s: State, step: Step)
    ensures Next(cfg, s, step).tables.accounts == s.tables.accounts
  {
    if Enabled(cfg, s, step) && IsPublishing(step) {
      PublishedKeepsOwners(s, step);
    }
  }

  lemma {:induction false} RunKeepsAccounts(cfg: Config, s: State, steps: seq<Step>)
    ensures Exec(cfg, s, steps).tables.accounts == s.tables.accounts
    decreases |steps|
  {
    if steps != [] {
      StepKeepsAccounts(cfg, s, steps[0]);
      RunKeepsAccounts(cfg, Next(cfg, s, steps[0]), steps[1..]);
    }
  }

  /** In every reachable state a replay by hand publishes deliveries of the caller's tenant only. */
  lemma ReplaysStayInTenant(cfg: Config, accounts: map<nat, Account>, steps: seq<Step>,
                            entry: nat, req: Request, now: real, k: nat)
    requires k < |Published(Exec(cfg, Initial(accounts), steps), ManualReplay(entry, req, now)).1|
    ensures var s := Exec(cfg, Initial(accounts), steps);
      var m := Published(s, ManualReplay(entry, req, now)).1[k];
      && m.delivery.Some? && m.delivery.value < |s.tables.deliveries|
      && s.tables.deliveries[m.delivery.value].tenant == req.tenant
  {
    var s := Exec(cfg, Initial(accounts), steps);
    RunKeepsWellOwned(cfg, Initial(accounts), steps);
    assert Filed(s.tables, s.tables.dlq[entry]);
  }

  // ---- Whom messages name ----

  predicate Names(m: Message, rows: nat) {
    m.delivery.Some? && m.delivery.value < rows
  }

  /** Every message names a stored delivery. */
  ghost predicate Addressed(s: State) {
    forall t :: 0 <= t < |s.tasks| ==> Names(s.tasks[t].message, |s.tables.deliveries|)
  }

  lemma {:induction false} MessagesNamed(t: Tables, ids: seq<nat>)
    requires forall k :: 0 <= k < |t.dlq| ==> Filed(t, t.dlq[k])
    ensures forall k :: 0 <= k < |Messages(t.dlq, ids)| ==> Names(Messages(t.dlq, ids)[k], |t.deliveries|)
  {
    if ids != [] {
      MessagesNamed(t, ids[..|ids| - 1]);
    }
  }

  lemma PublishedNamed(cfg: Config, s: State, step: Step)
    requires IsPublishing(step) && Enabled(cfg, s, step) && WellOwned(s)
    ensures var (tables, messages) := Published(s, step);
      && |tables.deliveries| >= |s.tables.deliveries|
      && forall k :: 0 <= k < |messages| ==> Names(messages[k], |tables.deliveries|)
  {
    match step {
      case ManualReplay(entry, _, _) => assert entry < |s.tables.dlq| ==> Filed(s.tables, s.tables.dlq[entry]);
      case AutoReplay(broken, now) =>
        var due := Due(s.tables.dlq);
        SweepOverTraffic(Desk(s.tables.dlq, []), due, broken, now);
        MessagesNamed(s.tables, Filter(due, broken));
        assert [] + Messages(s.tables.dlq, Filter(due, broken)) == Messages(s.tables.dlq, Filter(due, broken));
      case _ =>
    }
  }

  lemma StepKeepsAddressed(cfg: Config, s: State, step: Step)
    requires WellFormed(s) && WellOwned(s) && Addressed(s)
    ensures Addressed(Next(cfg, s, step))
  {
    StepKeepsWellFormed(cfg, s, step);
    if Enabled(cfg, s, step) && IsPublishing(step) {
      PublishedNamed(cfg, s, step);
    }
  }

  lemma {:induction false} RunKeepsAddressed(cfg: Config, s: State, steps: seq<Step>)
    requires WellFormed(s) && WellOwned(s) && Addressed(s)
    ensures Addressed(Exec(cfg, s, steps))
    decreases |steps|
  {
    if steps != [] {
      StepKeepsWellFormed(cfg, s, steps[0]);
      StepKeepsWellOwned(cfg, s, steps[0]);
      StepKeepsAddressed(cfg, s, steps[0]);
      RunKeepsAddressed(cfg, Next(cfg, s, steps[0]), steps[1..]);
    }
  }

  /** In every reachable state every message names a stored delivery: no run ends for want of one. */
  lemma NoMessageAstray(cfg: Config, accounts: map<nat, Account>, steps: seq<Step>, t: nat)
    requires t < |Exec(cfg, Initial(accounts), steps).tasks|
    ensures var s := Exec(cfg, Initial(accounts), steps);
      s.tasks[t].message.delivery.Some? && s.tasks[t].message.delivery.value < |s.tables.deliveries|
  {
    RunKeepsAddressed(cfg, Initial(accounts), steps);
    assert Names(Exec(cfg, Initial(accounts), steps).tasks[t].message,
                 |Exec(cfg, Initial(accounts), steps).tables.deliveries|);
  }

  // ---- What a status stands for ----

  /** A SENT row has the provider's id and its time, a FAILED one its error and its time. */
  predicate Tells(row: Delivery) {
    match row.status
    case PENDING => true
    case SENDING => true
    case SENT => row.providerDocumentId.Some? && row.sentAt == Some(row.updatedAt)
    case FAILED => row.lastErrorCode.Some? && row.lastErrorMessage.Some? && row.finalAt == Some(row.updatedAt)
    case _ => false
  }

  ghost predicate RowsTell(rows: seq<Delivery>) {
    forall d :: 0 <= d < |rows| ==> Tells(rows[d])
  }

  lemma WorkerEffectTells(cfg: Config, s: State, step: Step)
    requires WellFormed(s) && Enabled(cfg, s, step) && !IsPublishing(step)
    ensures var e := WorkerEffect(cfg, s, step); e.row.Some? ==> Tells(e.row.value)
  {
  }

  lemma PublishedTells(s: State, step: Step)
    requires IsPublishing(step) && RowsTell(s.tables.deliveries)
    ensures RowsTell(Published(s, step).0.deliveries)
  {
  }

  lemma StepKeepsRowsTell(cfg: Config, s: State, step: Step)
    requires WellFormed(s) && RowsTell(s.tables.deliveries)
    ensures RowsTell(Next(cfg, s, step).tables.deliveries)
  {
    if Enabled(cfg, s, step) {
      if IsPublishing(step) {
        PublishedTells(s, step);
      } else {
        WorkerEffectTells(cfg, s, step);
        assert Next(cfg, s, step) == Perform(s, step.t, WorkerEffect(cfg, s, step));
      }
    }
  }

  lemma {:induction false} RunKeepsRowsTell(cfg: Config, s: State, steps: seq<Step>)
    requires WellFormed(s) && RowsTell(s.tables.deliveries)
    ensures RowsTell(Exec(cfg, s, steps).tables.deliveries)
    decreases |steps|
  {
    if steps != [] {
      StepKeepsWellFormed(cfg, s, steps[0]);
      StepKeepsRowsTell(cfg, s, steps[0]);
      RunKeepsRowsTell(cfg, Next(cfg, s, steps[0]), steps[1..]);
    }
  }

  /** In every reachable state a row is PENDING, SENDING, SENT or FAILED and carries what that takes. */
  lemma StatusTells(cfg: Config, accounts: map<nat, Account>, steps: seq<Step>, d: nat)
    requires d < |Exec(cfg, Initial(accounts), steps).tables.deliveries|
    ensures var row := Exec(cfg, Initial(accounts), steps).tables.deliveries[d];
      && row.status in {PENDING, SENDING, SENT, FAILED}
      && (row.status == SENT ==> row.providerDocumentId.Some? && row.sentAt == Some(row.updatedAt))
      && (row.status == FAILED ==>
            row.lastErrorCode.Some? && row.lastErrorMessage.Some? && row.finalAt == Some(row.updatedAt))
  {
    RunKeepsRowsTell(cfg, Initial(accounts), steps);
    assert Tells(Exec(cfg, Initial(accounts), steps).tables.deliveries[d]);
  }
}
