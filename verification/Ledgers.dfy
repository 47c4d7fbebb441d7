/** What the audit log, the dead-letter queue and the retry counters add up to over whole runs. */
module Ledgers {
  import opened Core
  import opened Backoff
  import opened Store
  import opened Worker
  import opened Documents
  import opened Dlq
  import opened System

  // ---- Audit log and dead-letter queue ----

  function OutcomeOf(cfg: Config, r: RunRecord): Outcome
    requires r.Attempt?
  {
    Settle(cfg, r.row, r.answer, r.redisUp, r.now, r.jitter)
  }

  /** The audit log the answered calls should have left. */
  function AuditTrail(cfg: Config, h: seq<RunRecord>): seq<AuditEvent> {
    if h == [] then []
    else
      var r := h[|h| - 1];
      AuditTrail(cfg, h[..|h| - 1]) + if r.Attempt? then [OutcomeOf(cfg, r).Audit()] else []
  }

  /** The dead letters the answered calls should have left. */
  function DeadLetters(cfg: Config, h: seq<RunRecord>): seq<DlqEntry> {
    if h == [] then []
    else
      var r := h[|h| - 1];
      DeadLetters(cfg, h[..|h| - 1])
      + if r.Attempt? && OutcomeOf(cfg, r).deadLetter.Some? then [OutcomeOf(cfg, r).deadLetter.value] else []
  }

  ghost predicate Books(cfg: Config, s: State) {
    && s.tables.audit == AuditTrail(cfg, s.history)
    && SameButReplayTimes(DeadLetters(cfg, s.history), s.tables.dlq)
    && forall k :: 0 <= k < |s.history| && s.history[k].Attempt? ==> s.history[k].row.status == SENDING
  }

  lemma HistorySnoc(cfg: Config, h: seq<RunRecord>, r: RunRecord)
    ensures AuditTrail(cfg, h + [r]) == AuditTrail(cfg, h) + if r.Attempt? then [OutcomeOf(cfg, r).Audit()] else []
    ensures DeadLetters(cfg, h + [r]) == DeadLetters(cfg, h)
      + if r.Attempt? && OutcomeOf(cfg, r).deadLetter.Some? then [OutcomeOf(cfg, r).deadLetter.value] else []
  {
    assert (h + [r])[..|h|] == h;
  }

  /** A worker step commits an audit event and a dead letter exactly as its record says. */
  ghost predicate Recorded(cfg: Config, e: Effect) {
    match e.record
    case None => e.audit.None? && e.deadLetter.None?
    case Some(r) =>
      if r.Refusal? then e.audit.None? && e.deadLetter.None?
      else
        && r.row.status == SENDING
        && e.audit == Some(OutcomeOf(cfg, r).Audit())
        && e.deadLetter == OutcomeOf(cfg, r).deadLetter
  }

  lemma WorkerEffectRecorded(cfg: Config, s: State, step: Step)
    requires WellFormed(s) && Enabled(cfg, s, step) && !IsPublishing(step)
    ensures Recorded(cfg, WorkerEffect(cfg, s, step))
  {
  }

  lemma PerformKeepsBooks(cfg: Config, s: State, t: nat, e: Effect)
    requires Books(cfg, s) && t < |s.tasks| && Recorded(cfg, e)
    ensures Books(cfg, Perform(s, t, e))
  {
    var s' := Perform(s, t, e);
    assert s'.tables.audit == Appended(s.tables.audit, e.audit);
    assert s'.tables.dlq == Appended(s.tables.dlq, e.deadLetter);
    if e.record.Some? {
      HistorySnoc(cfg, s.history, e.record.value);
      RecordKeepsBooks(cfg, s, e, s');
    }
  }

  lemma RecordKeepsBooks(cfg: Config, s: State, e: Effect, s': State)
    requires Books(cfg, s) && Recorded(cfg, e) && e.record.Some?
    requires s'.tables.audit == Appended(s.tables.audit, e.audit)
    requires s'.tables.dlq == Appended(s.tables.dlq, e.deadLetter)
    requires s'.history == s.history + [e.record.value]
    ensures Books(cfg, s')
  {
    HistorySnoc(cfg, s.history, e.record.value);
    assert s'.tables.audit == AuditTrail(cfg, s'.history);
  }

  lemma PublishingLeavesBooks(s: State, step: Step)
    requires IsPublishing(step)
    ensures var t := Published(s, step).0;
      t.audit == s.tables.audit && SameButReplayTimes(s.tables.dlq, t.dlq)
  {
    if step.AutoReplay? {
      SweepOverFrame(Desk(s.tables.dlq, []), Due(s.tables.dlq), step.broken, step.now);
    }
  }

  lemma StepKeepsBooks(cfg: Config, s: State, step: Step)
    requires WellFormed(s) && Books(cfg, s)
    ensures Books(cfg, Next(cfg, s, step))
  {
    if Enabled(cfg, s, step) {
      if IsPublishing(step) {
        PublishingLeavesBooks(s, step);
        SameIsTransitive(DeadLetters(cfg, s.history), s.tables.dlq, Published(s, step).0.dlq);
      } else {
        WorkerEffectRecorded(cfg, s, step);
        PerformKeepsBooks(cfg, s, step.t, WorkerEffect(cfg, s, step));
      }
    }
  }

  lemma {:induction false} RunKeepsBooks(cfg: Config, s: State, steps: seq<Step>)
    requires WellFormed(s) && Books(cfg, s)
    ensures Books(cfg, Exec(cfg, s, steps))
    decreases |steps|
  {
    if steps != [] {
      StepKeepsWellFormed(cfg, s, steps[0]);
      StepKeepsBooks(cfg, s, steps[0]);
      RunKeepsBooks(cfg, Next(cfg, s, steps[0]), steps[1..]);
    }
  }

  function AttemptsFor(d: nat): RunRecord -> bool {
    (r: RunRecord) => r.Attempt? && r.row.id == d
  }

  /** Transient errors the breaker could not be told about: the run dies with the row still SENDING. */
  function UnrecordedFor(d: nat): RunRecord -> bool {
    (r: RunRecord) => r.Attempt? && r.row.id == d && r.answer.IsTransientError() && !r.redisUp
  }

  function EventsFor(d: nat): AuditEvent -> bool {
    (e: AuditEvent) => e.delivery == d
  }

  function EventsWith(d: nat, status: Status): AuditEvent -> bool {
    (e: AuditEvent) => e.delivery == d && e.status == status
  }

  function LettersFor(d: nat): DlqEntry -> bool {
    (e: DlqEntry) => e.delivery == Some(d)
  }

  lemma {:induction false} SameLetterCounts(a: seq<DlqEntry>, b: seq<DlqEntry>, d: nat)
    requires SameButReplayTimes(a, b)
    ensures Count(a, LettersFor(d)) == Count(b, LettersFor(d))
  {
    if a != [] {
      var n := |a| - 1;
      assert a[n].(replayedAt := None) == b[n].(replayedAt := None);
      SameLetterCounts(a[..n], b[..n], d);
    }
  }

  ghost predicate Balanced(h: seq<RunRecord>, audit: seq<AuditEvent>, dlq: seq<DlqEntry>, d: nat) {
    && Count(h, AttemptsFor(d)) == Count(audit, EventsFor(d))
    && Count(audit, EventsFor(d))
       == Count(audit, EventsWith(d, SENT)) + Count(audit, EventsWith(d, PENDING))
        + Count(dlq, LettersFor(d)) + Count(h, UnrecordedFor(d))
  }

  /** One answered call moves both sides of the balance alike. */
  lemma OutcomeBalances(cfg: Config, h: seq<RunRecord>, r: RunRecord,
                        audit: seq<AuditEvent>, dlq: seq<DlqEntry>, d: nat)
    requires r.Attempt? && r.row.status == SENDING && Balanced(h, audit, dlq, d)
    ensures var o := OutcomeOf(cfg, r);
      Balanced(h + [r], audit + [o.Audit()], Appended(dlq, o.deadLetter), d)
  {
    var o := OutcomeOf(cfg, r);
    CountAppend(h, r, AttemptsFor(d));
    CountAppend(h, r, UnrecordedFor(d));
    CountAppend(audit, o.Audit(), EventsFor(d));
    CountAppend(audit, o.Audit(), EventsWith(d, SENT));
    CountAppend(audit, o.Audit(), EventsWith(d, PENDING));
    if o.deadLetter.Some? {
      CountAppend(dlq, o.deadLetter.value, LettersFor(d));
    }
  }

  lemma RefusalBalances(h: seq<RunRecord>, r: RunRecord, audit: seq<AuditEvent>, dlq: seq<DlqEntry>, d: nat)
    requires r.Refusal? && Balanced(h, audit, dlq, d)
    ensures Balanced(h + [r], audit, dlq, d)
  {
    CountAppend(h, r, AttemptsFor(d));
    CountAppend(h, r, UnrecordedFor(d));
  }

  lemma {:induction false} TrailBalances(cfg: Config, h: seq<RunRecord>, d: nat)
    requires forall k :: 0 <= k < |h| && h[k].Attempt? ==> h[k].row.status == SENDING
    ensures Balanced(h, AuditTrail(cfg, h), DeadLetters(cfg, h), d)
  {
    if h != [] {
      var earlier, r := h[..|h| - 1], h[|h| - 1];
      assert h == earlier + [r];
      TrailBalances(cfg, earlier, d);
      HistorySnoc(cfg, earlier, r);
      if r.Attempt? {
        OutcomeBalances(cfg, earlier, r, AuditTrail(cfg, earlier), DeadLetters(cfg, earlier), d);
        assert DeadLetters(cfg, h) == Appended(DeadLetters(cfg, earlier), OutcomeOf(cfg, r).deadLetter);
      } else {
        RefusalBalances(earlier, r, AuditTrail(cfg, earlier), DeadLetters(cfg, earlier), d);
        assert AuditTrail(cfg, h) == AuditTrail(cfg, earlier) && DeadLetters(cfg, h) == DeadLetters(cfg, earlier);
      }
    }
  }

  /**
   * Attempt ledger, for every delivery and every run: answered calls are the audit events, and these
   * split into SENT runs, scheduled retries, dead letters and calls whose transient error Redis lost.
   */
  lemma AttemptLedger(cfg: Config, accounts: map<nat, Account>, steps: seq<Step>, d: nat)
    ensures var s := Exec(cfg, Initial(accounts), steps);
      var sent := Count(s.tables.audit, EventsWith(d, SENT));
      var retried := Count(s.tables.audit, EventsWith(d, PENDING));
      var dead := Count(s.tables.dlq, LettersFor(d));
      && Count(s.history, AttemptsFor(d)) == Count(s.tables.audit, EventsFor(d))
      && Count(s.tables.audit, EventsFor(d)) == sent + retried + dead + Count(s.history, UnrecordedFor(d))
  {
    RunKeepsBooks(cfg, Initial(accounts), steps);
    var s := Exec(cfg, Initial(accounts), steps);
    TrailBalances(cfg, s.history, d);
    SameLetterCounts(DeadLetters(cfg, s.history), s.tables.dlq, d);
  }

  /** One commit: the audit event repeats the committed status, and a dead letter the committed error. */
  lemma OutcomeCommittedTogether(cfg: Config, s: State, t: nat, redisUp: bool, now: real, jitter: real)
    requires WellFormed(s) && Enabled(cfg, s, Finish(t, redisUp, now, jitter))
    ensures var s' := Next(cfg, s, Finish(t, redisUp, now, jitter));
      var row := s'.tables.deliveries[s.tasks[t].phase.row.id];
      && s'.tables.audit == s.tables.audit + [AuditEvent(row.tenant, row.id, row.status)]
      && (if row.status == FAILED
          then |s'.tables.dlq| == |s.tables.dlq| + 1
            && s'.tables.dlq[..|s.tables.dlq|] == s.tables.dlq
            && var e := s'.tables.dlq[|s.tables.dlq|];
               row.lastErrorCode == Some(e.reasonCode) && row.lastErrorMessage == Some(e.reasonMessage)
               && e.delivery == Some(row.id)
          else s'.tables.dlq == s.tables.dlq)
  {
    DeadLetterClassification(cfg, s.tasks[t].phase.row, s.tasks[t].phase.answer, redisUp, now, jitter);
  }

  lemma {:induction false} LettersClassified(cfg: Config, h: seq<RunRecord>, k: nat)
    requires forall k :: 0 <= k < |h| && h[k].Attempt? ==> h[k].row.status == SENDING
    requires k < |DeadLetters(cfg, h)|
    ensures var e := DeadLetters(cfg, h)[k];
      (e.retryable <==> IsTransient(e.reasonCode)) && e.payloadBytes == None
      && e.taskName == SEND_DOCUMENT && e.delivery.Some?
  {
    var earlier, r := h[..|h| - 1], h[|h| - 1];
    if k < |DeadLetters(cfg, earlier)| {
      LettersClassified(cfg, earlier, k);
    } else {
      DeadLetterClassification(cfg, r.row, r.answer, r.redisUp, r.now, r.jitter);
    }
  }

  /**
   * In every reachable state, a dead letter is retryable exactly when its code is transient, and
   * replaying it by hand or by the sweep publishes the same message, with no file bytes.
   */
  lemma DlqClassification(cfg: Config, accounts: map<nat, Account>, steps: seq<Step>, k: nat)
    requires k < |Exec(cfg, Initial(accounts), steps).tables.dlq|
    ensures var e := Exec(cfg, Initial(accounts), steps).tables.dlq[k];
      && (e.retryable <==> IsTransient(e.reasonCode))
      && ReplayMessages(e) == [SweepMessage(e)]
      && SweepMessage(e).bytesHex == ""
  {
    RunKeepsBooks(cfg, Initial(accounts), steps);
    var s := Exec(cfg, Initial(accounts), steps);
    LettersClassified(cfg, s.history, k);
    assert DeadLetters(cfg, s.history)[k].(replayedAt := None) == s.tables.dlq[k].(replayedAt := None);
  }

  // ---- Retry counters ----

  function RetriesFor(cfg: Config, d: nat): RunRecord -> bool {
    (r: RunRecord) => r.row.id == d && r.Attempt? && Schedules(cfg, r)
  }

  function RefusalsFor(d: nat): RunRecord -> bool {
    (r: RunRecord) => r.row.id == d && r.Refusal?
  }

  /** Transient retries scheduled, and breaker rejections, of delivery d. */
  function Retries(cfg: Config, s: State, d: nat): nat {
    Count(s.history, RetriesFor(cfg, d))
  }

  function Refusals(s: State, d: nat): nat {
    Count(s.history, RefusalsFor(d))
  }

  /** The waits scheduled for delivery d, together. */
  function Waited(cfg: Config, h: seq<RunRecord>, d: nat): real {
    if h == [] then 0.0
    else
      var r := h[|h| - 1];
      Waited(cfg, h[..|h| - 1], d)
      + if r.row.id == d && Schedules(cfg, r) then r.jitter else 0.0
  }

  ghost predicate RetryLedger(cfg: Config, s: State) {
    && (forall d: nat :: d < |s.tables.deliveries| ==>
          s.tables.deliveries[d].retryCount == Retries(cfg, s, d) + Refusals(s, d))
    && (forall d: nat :: d >= |s.tables.deliveries| ==> Retries(cfg, s, d) + Refusals(s, d) == 0)
  }

  /** A worker commits a row whose retry count another worker has changed since it was loaded. */
  predicate LosesUpdate(cfg: Config, s: State, step: Step) {
    && Enabled(cfg, s, step)
    && (step.FailInactive? || step.RejectOpen? || step.BeginSending? || step.Finish?)
    && var row := s.tasks[step.t].phase.row;
       row.id < |s.tables.deliveries| && row.retryCount != s.tables.deliveries[row.id].retryCount
  }

  /** Counters and waits move by what the record says about d. */
  lemma CountsAfter(cfg: Config, h: seq<RunRecord>, record: Option<RunRecord>, d: nat)
    ensures var h', r := Appended(h, record), record;
      var scheduled := r.Some? && r.value.row.id == d && Schedules(cfg, r.value);
      && Count(h', RetriesFor(cfg, d)) + Count(h', RefusalsFor(d))
         == Count(h, RetriesFor(cfg, d)) + Count(h, RefusalsFor(d)) + (if scheduled then 1 else 0)
      && Count(h', RetriesFor(cfg, d))
         == Count(h, RetriesFor(cfg, d)) + (if scheduled && r.value.Attempt? then 1 else 0)
      && Waited(cfg, h', d) == Waited(cfg, h, d) + (if scheduled then r.value.jitter else 0.0)
  {
    if record.Some? {
      assert (h + [record.value])[..|h|] == h;
      CountAppend(h, record.value, RetriesFor(cfg, d));
      CountAppend(h, record.value, RefusalsFor(d));
    }
  }

  /** Whether the effect commits a row whose stored retry count has moved. */
  predicate Stale(s: State, t: nat, e: Effect) {
    && e.row.Some?
    && t < |s.tasks| && s.tasks[t].phase.Active()
    && var row := s.tasks[t].phase.row;
       row.id < |s.tables.deliveries| && row.retryCount != s.tables.deliveries[row.id].retryCount
  }

  lemma PerformKeepsLedgerIff(cfg: Config, s: State, t: nat, e: Effect)
    requires WellFormed(s) && RetryLedger(cfg, s) && Sound(cfg, s, t, e)
    ensures RetryLedger(cfg, Perform(s, t, e)) <==> !Stale(s, t, e)
  {
    var s' := Perform(s, t, e);
    assert e.record.Some? ==> e.record.value.row.id < |s.tables.deliveries|;
    forall d: nat
      ensures d < |s.tables.deliveries| && !Stale(s, t, e) ==>
        s'.tables.deliveries[d].retryCount == Retries(cfg, s', d) + Refusals(s', d)
      ensures d >= |s.tables.deliveries| ==> Retries(cfg, s', d) + Refusals(s', d) == 0
    {
      CountsAfter(cfg, s.history, e.record, d);
      assert d >= |s.tables.deliveries| ==> Retries(cfg, s, d) + Refusals(s, d) == 0;
    }
    if Stale(s, t, e) {
      var own := s.tasks[t].phase.row.id;
      CountsAfter(cfg, s.history, e.record, own);
      assert s'.tables.deliveries[own].retryCount != Retries(cfg, s', own) + Refusals(s', own);
    }
  }

  lemma PublishKeepsLedger(cfg: Config, s: State, tables: Tables, messages: seq<Message>)
    requires RetryLedger(cfg, s) && Grown(s.tables.deliveries, tables.deliveries)
    ensures RetryLedger(cfg, Publish(s, messages).(tables := tables))
  {
    var s' := Publish(s, messages).(tables := tables);
    assert forall d: nat :: Retries(cfg, s', d) == Retries(cfg, s, d) && Refusals(s', d) == Refusals(s, d);
  }

  lemma StaleIsLostUpdate(cfg: Config, s: State, step: Step)
    requires Enabled(cfg, s, step) && !IsPublishing(step)
    ensures Stale(s, step.t, WorkerEffect(cfg, s, step)) <==> LosesUpdate(cfg, s, step)
  {
  }

  /** The ledger survives a step exactly when the step is not a lost update. */
  lemma StepKeepsRetryLedgerIff(cfg: Config, s: State, step: Step)
    requires WellFormed(s) && RetryLedger(cfg, s)
    ensures RetryLedger(cfg, Next(cfg, s, step)) <==> !LosesUpdate(cfg, s, step)
  {
    if Enabled(cfg, s, step) {
      if IsPublishing(step) {
        PublishedGrows(s, step);
        PublishKeepsLedger(cfg, s, Published(s, step).0, Published(s, step).1);
      } else {
        WorkerEffectSound(cfg, s, step);
        StaleIsLostUpdate(cfg, s, step);
        PerformKeepsLedgerIff(cfg, s, step.t, WorkerEffect(cfg, s, step));
      }
    }
  }

  /** A worker commits a retry count below the stored one: its copy of row d is older than the last retries. */
  predicate Lowers(cfg: Config, s: State, step: Step, d: nat) {
    && Enabled(cfg, s, step)
    && (step.FailInactive? || step.RejectOpen? || step.BeginSending? || step.Finish?)
    && d < |s.tables.deliveries|
    && var phase := s.tasks[step.t].phase;
       var schedules := step.RejectOpen?
         || (step.Finish? && phase.answer.IsTransientError() && step.redisUp && ShouldRetry(cfg, phase.row.retryCount));
       && phase.row.id == d
       && phase.row.retryCount + (if schedules then 1 else 0) < s.tables.deliveries[d].retryCount
  }

  lemma PerformLowersIff(cfg: Config, s: State, t: nat, e: Effect, d: nat)
    requires WellFormed(s) && Sound(cfg, s, t, e) && d < |s.tables.deliveries|
    ensures Perform(s, t, e).tables.deliveries[d].retryCount < s.tables.deliveries[d].retryCount <==>
      e.row.Some? && e.row.value.id == d && e.row.value.retryCount < s.tables.deliveries[d].retryCount
  {
  }

  lemma CommitLowersIff(cfg: Config, s: State, step: Step, d: nat)
    requires Enabled(cfg, s, step) && !IsPublishing(step) && d < |s.tables.deliveries|
    ensures var row := WorkerEffect(cfg, s, step).row;
      (row.Some? && row.value.id == d && row.value.retryCount < s.tables.deliveries[d].retryCount) <==>
      Lowers(cfg, s, step, d)
  {
  }

  /** A step lowers a retry count exactly when it commits a lower one. */
  lemma StepLowersRetryCountIff(cfg: Config, s: State, step: Step, d: nat)
    requires WellFormed(s) && d < |s.tables.deliveries|
    ensures d < |Next(cfg, s, step).tables.deliveries|
    ensures Next(cfg, s, step).tables.deliveries[d].retryCount < s.tables.deliveries[d].retryCount <==>
      Lowers(cfg, s, step, d)
  {
    if Enabled(cfg, s, step) {
      if IsPublishing(step) {
        PublishedGrows(s, step);
      } else {
        WorkerEffectSound(cfg, s, step);
        PerformLowersIff(cfg, s, step.t, WorkerEffect(cfg, s, step), d);
        CommitLowersIff(cfg, s, step, d);
      }
    }
  }

  /** The stored retry count of delivery d, 0 before it exists. */
  function StoredRetries(s: State, d: nat): nat {
    if d < |s.tables.deliveries| then s.tables.deliveries[d].retryCount else 0
  }

  /** Step k of the run does not lower the retry count of delivery d. */
  predicate KeepsCountAt(cfg: Config, s: State, steps: seq<Step>, d: nat, k: nat)
    requires k < |steps|
  {
    StoredRetries(Exec(cfg, s, steps[..k]), d) <= StoredRetries(Exec(cfg, s, steps[..k + 1]), d)
  }

  /** Over any run, a delivery's retry count grows from step to step exactly if no step lowers it where it is taken. */
  lemma RetryCountGrowsIff(cfg: Config, accounts: map<nat, Account>, steps: seq<Step>, d: nat)
    ensures (forall k :: 0 <= k < |steps| ==> KeepsCountAt(cfg, Initial(accounts), steps, d, k)) <==>
            (forall k :: 0 <= k < |steps| ==> !Lowers(cfg, Exec(cfg, Initial(accounts), steps[..k]), steps[k], d))
  {
    var s0 := Initial(accounts);
    forall k: nat | k < |steps|
      ensures KeepsCountAt(cfg, s0, steps, d, k) <==> !Lowers(cfg, Exec(cfg, s0, steps[..k]), steps[k], d)
    {
      var s := Exec(cfg, s0, steps[..k]);
      RunKeepsWellFormed(cfg, s0, steps[..k]);
      ExecSnoc(cfg, s0, steps, k);
      if d < |s.tables.deliveries| {
        StepLowersRetryCountIff(cfg, s, steps[k], d);
      }
    }
  }

  /** At most one worker per delivery. */
  ghost predicate Serial(s: State) {
    forall t, u :: 0 <= t < u < |s.tasks| && s.tasks[t].phase.Active() && s.tasks[u].phase.Active() ==>
      s.tasks[t].phase.row.id != s.tasks[u].phase.row.id
  }

  ghost predicate SerialRun(cfg: Config, s: State, steps: seq<Step>)
    decreases |steps|
  {
    Serial(s) && (steps == [] || SerialRun(cfg, Next(cfg, s, steps[0]), steps[1..]))
  }

  /** Every worker's copy has the stored retry count. */
  ghost predicate Fresh(s: State) {
    forall t :: 0 <= t < |s.tasks| && s.tasks[t].phase.Active() ==>
      var row := s.tasks[t].phase.row;
      row.id < |s.tables.deliveries| && row.retryCount == s.tables.deliveries[row.id].retryCount
  }

  lemma PerformKeepsFresh(cfg: Config, s: State, t: nat, e: Effect)
    requires WellFormed(s) && Serial(s) && Fresh(s) && Sound(cfg, s, t, e)
    ensures Fresh(Perform(s, t, e)) && !Stale(s, t, e)
  {
  }

  lemma PublishKeepsFresh(s: State, tables: Tables, messages: seq<Message>)
    requires Fresh(s) && Grown(s.tables.deliveries, tables.deliveries)
    ensures Fresh(Publish(s, messages).(tables := tables))
  {
  }

  /** What holds of every delivery while workers do not overlap on it. */
  ghost predicate Budget(cfg: Config, s: State) {
    && Fresh(s)
    && RetryLedger(cfg, s)
    && (forall d: nat :: Retries(cfg, s, d) == 0 || Retries(cfg, s, d) <= cfg.maxAttempts)
    && (forall d: nat :: d < |s.tables.deliveries| ==>
          Waited(cfg, s.history, d) <= TotalDelay(cfg, s.tables.deliveries[d].retryCount))
    && (forall d: nat :: d >= |s.tables.deliveries| ==> Waited(cfg, s.history, d) == 0.0)
  }

  /** The wait of a scheduling commit lies in the jitter range of the count it saw. */
  ghost predicate Fair(cfg: Config, e: Effect) {
    e.record.Some? ==> JitterInRange(cfg, e.record.value.row.retryCount, e.record.value.jitter)
  }

  lemma WorkerEffectFair(cfg: Config, s: State, step: Step)
    requires Enabled(cfg, s, step) && !IsPublishing(step)
    ensures Fair(cfg, WorkerEffect(cfg, s, step))
  {
  }

  lemma PerformKeepsBudget(cfg: Config, s: State, t: nat, e: Effect)
    requires WellFormed(s) && Serial(s) && Budget(cfg, s) && Sound(cfg, s, t, e) && Fair(cfg, e)
    ensures Budget(cfg, Perform(s, t, e))
    ensures forall d: nat :: d < |s.tables.deliveries| ==>
      Perform(s, t, e).tables.deliveries[d].retryCount >= s.tables.deliveries[d].retryCount
  {
    var s' := Perform(s, t, e);
    PerformKeepsFresh(cfg, s, t, e);
    PerformKeepsLedgerIff(cfg, s, t, e);
    forall d: nat
      ensures Retries(cfg, s', d) == 0 || Retries(cfg, s', d) <= cfg.maxAttempts
      ensures d < |s.tables.deliveries| ==>
        Waited(cfg, s'.history, d) <= TotalDelay(cfg, s'.tables.deliveries[d].retryCount)
      ensures d >= |s.tables.deliveries| ==> Waited(cfg, s'.history, d) == 0.0
    {
      CountsAfter(cfg, s.history, e.record, d);
    }
  }

  lemma PublishKeepsBudget(cfg: Config, s: State, tables: Tables, messages: seq<Message>)
    requires Budget(cfg, s) && Grown(s.tables.deliveries, tables.deliveries)
    ensures Budget(cfg, Publish(s, messages).(tables := tables))
  {
    var s' := Publish(s, messages).(tables := tables);
    PublishKeepsFresh(s, tables, messages);
    PublishKeepsLedger(cfg, s, tables, messages);
    assert forall d: nat :: Retries(cfg, s', d) == Retries(cfg, s, d);
  }

  lemma StepKeepsBudget(cfg: Config, s: State, step: Step)
    requires WellFormed(s) && Serial(s) && Budget(cfg, s)
    ensures Budget(cfg, Next(cfg, s, step))
    ensures |Next(cfg, s, step).tables.deliveries| >= |s.tables.deliveries|
    ensures forall d: nat :: d < |s.tables.deliveries| ==>
      Next(cfg, s, step).tables.deliveries[d].retryCount >= s.tables.deliveries[d].retryCount
  {
    if Enabled(cfg, s, step) {
      if IsPublishing(step) {
        PublishedGrows(s, step);
        PublishKeepsBudget(cfg, s, Published(s, step).0, Published(s, step).1);
      } else {
        WorkerEffectSound(cfg, s, step);
        WorkerEffectFair(cfg, s, step);
        PerformKeepsBudget(cfg, s, step.t, WorkerEffect(cfg, s, step));
      }
    }
  }

  lemma {:induction false} RunKeepsBudget(cfg: Config, s: State, steps: seq<Step>)
    requires WellFormed(s) && Budget(cfg, s) && SerialRun(cfg, s, steps)
    ensures Budget(cfg, Exec(cfg, s, steps))
    ensures |Exec(cfg, s, steps).tables.deliveries| >= |s.tables.deliveries|
    ensures forall d: nat :: d < |s.tables.deliveries| ==>
      Exec(cfg, s, steps).tables.deliveries[d].retryCount >= s.tables.deliveries[d].retryCount
    decreases |steps|
  {
    if steps != [] {
      var s' := Next(cfg, s, steps[0]);
      StepKeepsWellFormed(cfg, s, steps[0]);
      StepKeepsBudget(cfg, s, steps[0]);
      RunKeepsBudget(cfg, s', steps[1..]);
    }
  }

  /**
   * Over a delivery's whole life, forced retries and replays included: its retry count is its transient
   * retries plus its rejections by the breaker, the transient retries stay within max_attempts, and all
   * its waits together stay below both closed bounds on the backoff.
   */
  lemma RetryBudget(cfg: Config, accounts: map<nat, Account>, steps: seq<Step>, d: nat)
    requires SerialRun(cfg, Initial(accounts), steps)
    requires d < |Exec(cfg, Initial(accounts), steps).tables.deliveries|
    ensures var s := Exec(cfg, Initial(accounts), steps);
      var n := s.tables.deliveries[d].retryCount;
      && n == Retries(cfg, s, d) + Refusals(s, d)
      && (Retries(cfg, s, d) == 0 || Retries(cfg, s, d) <= cfg.maxAttempts)
      && Waited(cfg, s.history, d) <= TotalDelay(cfg, n)
      && TotalDelay(cfg, n) <= WaitCeiling(cfg, n)
  {
    RunKeepsBudget(cfg, Initial(accounts), steps);
    TotalDelayBound(cfg, Exec(cfg, Initial(accounts), steps).tables.deliveries[d].retryCount);
  }

  /** With one worker at a time per delivery, its retry count never goes down. */
  lemma RetryCountNeverDecreases(cfg: Config, accounts: map<nat, Account>, first: seq<Step>, rest: seq<Step>, d: nat)
    requires SerialRun(cfg, Initial(accounts), first)
    requires SerialRun(cfg, Exec(cfg, Initial(accounts), first), rest)
    requires d < |Exec(cfg, Initial(accounts), first).tables.deliveries|
    ensures var before, after := Exec(cfg, Initial(accounts), first), Exec(cfg, Initial(accounts), first + rest);
      d < |after.tables.deliveries|
      && before.tables.deliveries[d].retryCount <= after.tables.deliveries[d].retryCount
  {
    RunKeepsWellFormed(cfg, Initial(accounts), first);
    RunKeepsBudget(cfg, Initial(accounts), first);
    RunKeepsBudget(cfg, Exec(cfg, Initial(accounts), first), rest);
    ExecSplit(cfg, Initial(accounts), first, rest);
  }

  // ---- One delivery per document ----

  ghost predicate Unique(s: State) {
    && OneDeliveryPerDocument(s.tables)
    && forall t :: 0 <= t < |s.tasks| && s.tasks[t].phase.Active() ==>
         s.tasks[t].phase.row.document == s.tasks[t].phase.row.id
  }

  lemma PerformKeepsUnique(cfg: Config, s: State, t: nat, e: Effect)
    requires WellFormed(s) && Unique(s) && Sound(cfg, s, t, e)
    ensures Unique(Perform(s, t, e))
  {
  }

  lemma PublishedKeepsUniqueness(s: State, step: Step)
    requires IsPublishing(step) && OneDeliveryPerDocument(s.tables)
    ensures OneDeliveryPerDocument(Published(s, step).0)
  {
    if step.Submit? {
      SubmitKeepsUniqueness(s.tables, step.req, step.now);
    }
  }

  lemma StepKeepsUnique(cfg: Config, s: State, step: Step)
    requires WellFormed(s) && Unique(s)
    ensures Unique(Next(cfg, s, step))
  {
    if Enabled(cfg, s, step) {
      if IsPublishing(step) {
        PublishedKeepsUniqueness(s, step);
      } else {
        WorkerEffectSound(cfg, s, step);
        PerformKeepsUnique(cfg, s, step.t, WorkerEffect(cfg, s, step));
      }
    }
  }

  lemma {:induction false} RunKeepsUnique(cfg: Config, s: State, steps: seq<Step>)
    requires WellFormed(s) && Unique(s)
    ensures Unique(Exec(cfg, s, steps))
    decreases |steps|
  {
    if steps != [] {
      StepKeepsWellFormed(cfg, s, steps[0]);
      StepKeepsUnique(cfg, s, steps[0]);
      RunKeepsUnique(cfg, Next(cfg, s, steps[0]), steps[1..]);
    }
  }

  /** However often requests are repeated, no document is stored twice and each has one delivery. */
  lemma OneDeliveryEach(cfg: Config, accounts: map<nat, Account>, steps: seq<Step>)
    ensures OneDeliveryPerDocument(Exec(cfg, Initial(accounts), steps).tables)
  {
    RunKeepsUnique(cfg, Initial(accounts), steps);
  }
}
