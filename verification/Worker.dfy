/** src/infrastructure/queue/tasks/send_document_task.py: one run of the send_document task. */
module Worker {
  import opened Core
  import opened Backoff
  import opened Breaker
  import opened Deliveries
  import opened Store

  /** How the provider call ends. */
  datatype Answer =
    | Accepted(documentId: string)
    | TransientError(message: string)
    | RateLimited
    | PermanentError(message: string)
    | UnexpectedError(message: string)
  {
    /** ProviderRateLimitError is a ProviderTransientError with its own code. */
    predicate IsTransientError() {
      TransientError? || RateLimited?
    }

    function Code(): string {
      match this
      case Accepted(_) => ""
      case TransientError(_) => "PROVIDER_TRANSIENT_ERROR"
      case RateLimited => "PROVIDER_RATE_LIMIT"
      case PermanentError(_) => "PROVIDER_PERMANENT_ERROR"
      case UnexpectedError(_) => "UNKNOWN_ERROR"
    }

    function Text(): string {
      match this
      case Accepted(_) => ""
      case TransientError(m) => m
      case RateLimited => "Provider rate limit exceeded"
      case PermanentError(m) => m
      case UnexpectedError(m) => m
    }
  }

  /**
   * What the environment decides during a run: which calls to Redis and to the provider factory
   * raise, the provider's answer, the times and the jitter drawn.
   */
  datatype RunInput = RunInput(
    checkedAt: real,
    guardUp: bool,
    factoryUp: bool,
    answer: Answer,
    redisUp: bool,
    answeredAt: real,
    jitter: real)

  /** Stands for the text of the exception Redis raises. */
  const REDIS_DOWN := "Error while reading from Redis"

  /** Where a run ends. */
  datatype Verdict = NotFound | Inactive | GuardRaised | CircuitOpen | FactoryRaised | Answered

  /** `_write_dlq`. */
  function DeadLetter(d: Delivery, code: string, message: string, retryable: bool): DlqEntry {
    DlqEntry(d.tenant, Some(d.id), Some(d.account), SEND_DOCUMENT, None, code, message, retryable, None)
  }

  /** The outcome commit: the row, the dead letter if any, and the audit event. */
  datatype Outcome = Outcome(row: Delivery, deadLetter: Option<DlqEntry>) {
    function Audit(): AuditEvent {
      AuditEvent(row.tenant, row.id, row.status)
    }

    function On(t: Tables): Tables {
      t.WithDelivery(row).(
        dlq := t.dlq + if deadLetter.Some? then [deadLetter.value] else [],
        audit := t.audit + [Audit()])
    }
  }

  function GiveUp(d: Delivery, code: string, message: string, retryable: bool, now: real): Outcome {
    var failed := d.MarkedFailed(code, message, now);
    Outcome(failed, Some(DeadLetter(failed, code, message, retryable)))
  }

  /** The provider answered delivery `d`; `redisUp` says whether the breaker could be told. */
  function Settle(cfg: Config, d: Delivery, a: Answer, redisUp: bool, now: real, jitter: real): Outcome {
    if a.Accepted? then
      var sent := d.MarkedSent(a.documentId, now);
      if redisUp then Outcome(sent, None) else GiveUp(sent, "UNKNOWN_ERROR", REDIS_DOWN, false, now)
    else if a.IsTransientError() then
      if !redisUp then Outcome(d, None)
      else if ShouldRetry(cfg, d.retryCount) then Outcome(d.RetryScheduled(now + jitter, now), None)
      else GiveUp(d, a.Code(), a.Text(), true, now)
    else GiveUp(d, a.Code(), a.Text(), false, now)
  }

  function RefusedByBreaker(d: Delivery, now: real, jitter: real): Delivery {
    d.MarkedFailed("CIRCUIT_OPEN", "Circuit breaker is OPEN", now).RetryScheduled(now + jitter, now)
  }

  function RefusedInactive(d: Delivery, now: real): Delivery {
    d.MarkedFailed("PROVIDER_ACCOUNT_INACTIVE", "Provider account not active", now)
  }

  predicate ActiveAccount(t: Tables, account: nat) {
    account in t.accounts && t.accounts[account].active
  }

  ghost function VerdictOf(cfg: Config, t: Tables, past: seq<Event>, id: nat, run: RunInput): Verdict {
    if id >= |t.deliveries| then NotFound
    else if !ActiveAccount(t, t.deliveries[id].account) then Inactive
    else AttemptVerdict(cfg, past, run)
  }

  ghost function AttemptVerdict(cfg: Config, past: seq<Event>, run: RunInput): Verdict {
    if !run.guardUp then GuardRaised
    else if Rejects(cfg, past, run.checkedAt) then CircuitOpen
    else if !run.factoryUp then FactoryRaised
    else Answered
  }

  /** The tables a run commits, in order. */
  function Commits(cfg: Config, t: Tables, id: nat, verdict: Verdict, run: RunInput): seq<Tables> {
    if id >= |t.deliveries| then []
    else
      var d := t.deliveries[id];
      var sending := d.MarkedSending(run.checkedAt);
      var first := t.WithDelivery(sending);
      match verdict
      case NotFound => []
      case Inactive => [t.WithDelivery(RefusedInactive(d, run.checkedAt))]
      case GuardRaised => []
      case CircuitOpen => [t.WithDelivery(RefusedByBreaker(d, run.checkedAt, run.jitter))]
      case FactoryRaised => [first]
      case Answered => [first, Settle(cfg, sending, run.answer, run.redisUp, run.answeredAt, run.jitter).On(first)]
  }

  /** What a run tells the breaker of its account. */
  function Reports(verdict: Verdict, run: RunInput): seq<Event> {
    match verdict
    case NotFound => []
    case Inactive => []
    case GuardRaised => []
    case CircuitOpen => [Checked(run.checkedAt)]
    case FactoryRaised => [Checked(run.checkedAt)]
    case Answered => [Checked(run.checkedAt)] + AnswerReports(run)
  }

  function AnswerReports(run: RunInput): seq<Event> {
    if !run.redisUp then []
    else if run.answer.Accepted? then [Succeeded(run.answeredAt)]
    else if run.answer.IsTransientError() then [Failed(run.answeredAt)]
    else []
  }

  /** The runs that end in an exception out of the task. */
  predicate Raises(verdict: Verdict, run: RunInput) {
    match verdict
    case NotFound => false
    case Inactive => false
    case GuardRaised => true
    case CircuitOpen => false
    case FactoryRaised => true
    case Answered => !run.redisUp && run.answer.IsTransientError()
  }

  ghost predicate RowsInPlace(t: Tables) {
    forall i :: 0 <= i < |t.deliveries| ==> t.deliveries[i].id == i
  }

  /**
   * `_send_document_async`. The two commits are separate versions of the database, so a crash
   * between them leaves exactly the first one.
   */
  method SendDocument(db: Database, breaker: CircuitBreaker, id: nat, run: RunInput) returns (raised: bool)
    requires breaker.Valid() && RowsInPlace(db.tables)
    requires run.checkedAt <= run.answeredAt
    requires id < |db.tables.deliveries| ==>
      NotBefore(breaker.Past(db.tables.deliveries[id].account), run.checkedAt)
    modifies db, breaker
    ensures breaker.Valid()
    ensures id >= |old(db.tables).deliveries| ==>
      !raised && db.commits == old(db.commits) && db.tables == old(db.tables)
      && forall a: nat :: breaker.Past(a) == old(breaker.Past(a))
    ensures id < |old(db.tables).deliveries| ==>
      var account := old(db.tables).deliveries[id].account;
      var verdict := VerdictOf(breaker.cfg, old(db.tables), old(breaker.Past(account)), id, run);
      var commits := Commits(breaker.cfg, old(db.tables), id, verdict, run);
      && db.commits == old(db.commits) + commits
      && db.tables == (if commits == [] then old(db.tables) else commits[|commits| - 1])
      && breaker.Past(account) == old(breaker.Past(account)) + Reports(verdict, run)
      && (forall a: nat :: a != account ==> breaker.Past(a) == old(breaker.Past(a)))
      && (raised <==> Raises(verdict, run))
  {
    raised := false;
    var session := new Session(db);
    if id >= |session.work.deliveries| {
      return;
    }
    var delivery := new DocumentDelivery(session.work.deliveries[id]);
    var account := delivery.loaded.account;
    if !ActiveAccount(session.work, account) {
      delivery.MarkFailed("PROVIDER_ACCOUNT_INACTIVE", "Provider account not active", run.checkedAt);
      session.UpdateDelivery(delivery);
      session.Commit();
      return;
    }
    raised := Attempt(session, breaker, delivery, account, run);
  }

  /** From the guard on. */
  method Attempt(session: Session, breaker: CircuitBreaker, delivery: DocumentDelivery, account: nat, run: RunInput)
    returns (raised: bool)
    requires breaker.Valid() && NotBefore(breaker.Past(account), run.checkedAt) && run.checkedAt <= run.answeredAt
    requires delivery.Row().id < |session.work.deliveries|
    requires session.work.deliveries[delivery.Row().id] == delivery.Row()
    requires session.work == session.db.tables
    modifies session, session.db, breaker, delivery
    ensures breaker.Valid()
    ensures forall a: nat :: a != account ==> breaker.Past(a) == old(breaker.Past(a))
    ensures var verdict := AttemptVerdict(breaker.cfg, old(breaker.Past(account)), run);
      var commits := Commits(breaker.cfg, old(session.work), old(delivery.Row()).id, verdict, run);
      && session.db.commits == old(session.db.commits) + commits
      && session.db.tables == (if commits == [] then old(session.db.tables) else commits[|commits| - 1])
      && breaker.Past(account) == old(breaker.Past(account)) + Reports(verdict, run)
      && (raised <==> Raises(verdict, run))
  {
    raised := false;
    if !run.guardUp {
      raised := true;
      return;
    }
    var rejected := breaker.Guard(account, run.checkedAt);
    if rejected {
      CommitRefusal(session, delivery, run.checkedAt, run.jitter);
      return;
    }
    raised := SendToProvider(session, breaker, delivery, account, run);
  }

  /** From the first commit on. */
  method SendToProvider(session: Session, breaker: CircuitBreaker, delivery: DocumentDelivery,
                        account: nat, run: RunInput)
    returns (raised: bool)
    requires breaker.Valid() && NotBefore(breaker.Past(account), run.answeredAt)
    requires delivery.Row().id < |session.work.deliveries|
    requires session.work.deliveries[delivery.Row().id] == delivery.Row()
    modifies session, session.db, breaker, delivery
    ensures breaker.Valid()
    ensures forall a: nat :: a != account ==> breaker.Past(a) == old(breaker.Past(a))
    ensures breaker.Past(account)
         == old(breaker.Past(account)) + if run.factoryUp then AnswerReports(run) else []
    ensures var verdict := if run.factoryUp then Answered else FactoryRaised;
      var commits := Commits(breaker.cfg, old(session.work), old(delivery.Row()).id, verdict, run);
      && session.db.commits == old(session.db.commits) + commits
      && session.db.tables == commits[|commits| - 1]
      && (raised <==> Raises(verdict, run))
  {
    CommitSending(session, delivery, run.checkedAt);
    if run.factoryUp {
      raised := CallProvider(session, breaker, delivery, account, run);
    } else {
      raised := true;
    }
  }

  /** The handler of CircuitOpenError. */
  method CommitRefusal(session: Session, delivery: DocumentDelivery, now: real, jitter: real)
    modifies session, session.db, delivery
    ensures session.db.tables == old(session.work).WithDelivery(RefusedByBreaker(old(delivery.Row()), now, jitter))
    ensures session.db.commits == old(session.db.commits) + [session.db.tables]
  {
    delivery.MarkFailed("CIRCUIT_OPEN", "Circuit breaker is OPEN", now);
    delivery.ScheduleRetry(now + jitter, now);
    session.UpdateDelivery(delivery);
    session.Commit();
  }

  /** The first commit of a run that goes on to the provider. */
  method CommitSending(session: Session, delivery: DocumentDelivery, now: real)
    modifies session, session.db, delivery
    ensures delivery.Row() == old(delivery.Row()).MarkedSending(now)
    ensures session.work == session.db.tables == old(session.work).WithDelivery(delivery.Row())
    ensures session.db.commits == old(session.db.commits) + [session.db.tables]
  {
    delivery.MarkSending(now);
    session.UpdateDelivery(delivery);
    session.Commit();
  }

  /** The try block, its handlers and the finally block. */
  method CallProvider(session: Session, breaker: CircuitBreaker, delivery: DocumentDelivery,
                      account: nat, run: RunInput)
    returns (raised: bool)
    requires breaker.Valid() && NotBefore(breaker.Past(account), run.answeredAt)
    modifies session, session.db, breaker, delivery
    ensures breaker.Valid()
    ensures breaker.Past(account) == old(breaker.Past(account)) + AnswerReports(run)
    ensures forall a: nat :: a != account ==> breaker.Past(a) == old(breaker.Past(a))
    ensures var row := old(delivery.Row());
      var outcome := Settle(breaker.cfg, row, run.answer, run.redisUp, run.answeredAt, run.jitter);
      session.db.tables == outcome.On(old(session.work))
    ensures session.db.commits == old(session.db.commits) + [session.db.tables]
    ensures raised <==> !run.redisUp && run.answer.IsTransientError()
  {
    var deadLetter;
    raised, deadLetter := HandleAnswer(breaker, delivery, account, run);
    if deadLetter.Some? {
      session.AddDlqEntry(deadLetter.value);
    }
    session.AddAuditEvent(AuditEvent(delivery.loaded.tenant, delivery.loaded.id, delivery.unifiedStatus));
    session.UpdateDelivery(delivery);
    session.Commit();
  }

  /** The try block and its handlers; the dead letter is added to the session by the caller. */
  method HandleAnswer(breaker: CircuitBreaker, delivery: DocumentDelivery, account: nat, run: RunInput)
    returns (raised: bool, deadLetter: Option<DlqEntry>)
    requires breaker.Valid() && NotBefore(breaker.Past(account), run.answeredAt)
    modifies breaker, delivery
    ensures breaker.Valid()
    ensures breaker.Past(account) == old(breaker.Past(account)) + AnswerReports(run)
    ensures forall a: nat :: a != account ==> breaker.Past(a) == old(breaker.Past(a))
    ensures Outcome(delivery.Row(), deadLetter)
         == Settle(breaker.cfg, old(delivery.Row()), run.answer, run.redisUp, run.answeredAt, run.jitter)
    ensures raised <==> !run.redisUp && run.answer.IsTransientError()
  {
    raised, deadLetter := false, None;
    var now, answer := run.answeredAt, run.answer;
    if answer.Accepted? {
      delivery.MarkSent(answer.documentId, now);
      if run.redisUp {
        breaker.RecordSuccess(account, now);
      } else {
        delivery.MarkFailed("UNKNOWN_ERROR", REDIS_DOWN, now);
        deadLetter := Some(DeadLetter(delivery.Row(), "UNKNOWN_ERROR", REDIS_DOWN, false));
      }
    } else if answer.IsTransientError() {
      if run.redisUp {
        breaker.RecordFailure(account, now);
        if ShouldRetry(breaker.cfg, delivery.retryCount) {
          delivery.ScheduleRetry(now + run.jitter, now);
        } else {
          delivery.MarkFailed(answer.Code(), answer.Text(), now);
          deadLetter := Some(DeadLetter(delivery.Row(), answer.Code(), answer.Text(), true));
        }
      } else {
        raised := true;
      }
    } else {
      delivery.MarkFailed(answer.Code(), answer.Text(), now);
      deadLetter := Some(DeadLetter(delivery.Row(), answer.Code(), answer.Text(), false));
    }
  }

  // ---- What an outcome commit says ----

  /** Which outcome means what: each final status, and each field it may touch, by the answer alone. */
  lemma OutcomeTable(cfg: Config, d: Delivery, a: Answer, redisUp: bool, now: real, jitter: real)
    requires d.status == SENDING && JitterInRange(cfg, d.retryCount, jitter)
    ensures var row := Settle(cfg, d, a, redisUp, now, jitter).row;
      var retried := a.IsTransientError() && redisUp && d.retryCount < cfg.maxAttempts;
      && (row.status == SENT <==> a.Accepted? && redisUp)
      && (row.status == PENDING <==> retried)
      && (row.status == SENDING <==> a.IsTransientError() && !redisUp)
      && row.status in {SENT, PENDING, SENDING, FAILED}
      && row.retryCount == d.retryCount + (if retried then 1 else 0)
      && row.providerDocumentId == (if a.Accepted? then Some(a.documentId) else d.providerDocumentId)
      && (if retried
          then row.nextRetryAt == Some(now + jitter) && 0.0 <= jitter <= Delay(cfg, d.retryCount)
          else row.nextRetryAt == d.nextRetryAt)
      && row.sentAt == (if a.Accepted? then Some(now) else d.sentAt)
      && row.finalAt == (if row.status == FAILED then Some(now) else d.finalAt)
      && row.updatedAt == (if row.status == SENDING then d.updatedAt else now)
      && row.id == d.id && row.tenant == d.tenant && row.document == d.document && row.account == d.account
      && (row.status != FAILED ==>
            row.lastErrorCode == d.lastErrorCode && row.lastErrorMessage == d.lastErrorMessage)
      && (row.status == FAILED ==>
            && row.lastErrorCode.Some? && row.lastErrorMessage.Some?
            && ReportedError(a, row.lastErrorCode.value, row.lastErrorMessage.value))
  {
  }

  /** The code and message a failed delivery carries, by the answer. */
  predicate ReportedError(a: Answer, code: string, message: string) {
    match a
    case Accepted(_) => code == "UNKNOWN_ERROR" && message == REDIS_DOWN
    case TransientError(m) => code == "PROVIDER_TRANSIENT_ERROR" && message == m
    case RateLimited => code == "PROVIDER_RATE_LIMIT" && message == "Provider rate limit exceeded"
    case PermanentError(m) => code == "PROVIDER_PERMANENT_ERROR" && message == m
    case UnexpectedError(m) => code == "UNKNOWN_ERROR" && message == m
  }

  /** The times a retry may be set to are exactly those between now and the backoff delay. */
  lemma RetryTimesExactly(cfg: Config, d: Delivery, a: Answer, now: real, at: real)
    requires a.IsTransientError() && d.retryCount < cfg.maxAttempts
    ensures (exists jitter :: JitterInRange(cfg, d.retryCount, jitter)
               && Settle(cfg, d, a, true, now, jitter).row.nextRetryAt == Some(at))
       <==> now <= at <= now + Delay(cfg, d.retryCount)
  {
    if now <= at <= now + Delay(cfg, d.retryCount) {
      assert JitterInRange(cfg, d.retryCount, at - now);
      assert Settle(cfg, d, a, true, now, at - now).row.nextRetryAt == Some(at);
    }
  }

  /** What a refusal by the open breaker leaves: a failure on record and a retry to come. */
  lemma RefusalTable(d: Delivery, now: real, jitter: real)
    ensures var row := RefusedByBreaker(d, now, jitter);
      && row.status == PENDING && row.retryCount == d.retryCount + 1 && row.nextRetryAt == Some(now + jitter)
      && row.lastErrorCode == Some("CIRCUIT_OPEN") && row.lastErrorMessage == Some("Circuit breaker is OPEN")
      && row.finalAt == Some(now) && row.updatedAt == now
      && row.providerDocumentId == d.providerDocumentId && row.sentAt == d.sentAt
      && row.id == d.id && row.tenant == d.tenant && row.document == d.document && row.account == d.account
  {
  }

  /** What a missing or inactive account leaves: a failure, and nothing to retry. */
  lemma InactiveTable(d: Delivery, now: real)
    ensures var row := RefusedInactive(d, now);
      && row.status == FAILED && row.retryCount == d.retryCount && row.nextRetryAt == d.nextRetryAt
      && row.lastErrorCode == Some("PROVIDER_ACCOUNT_INACTIVE")
      && row.lastErrorMessage == Some("Provider account not active")
      && row.finalAt == Some(now) && row.updatedAt == now
      && row.providerDocumentId == d.providerDocumentId && row.sentAt == d.sentAt
      && row.id == d.id && row.tenant == d.tenant && row.document == d.document && row.account == d.account
  {
  }

  /** Where a run ends, by the row, the account, the breaker's history and the exceptions, in this order. */
  lemma VerdictTable(cfg: Config, t: Tables, past: seq<Event>, id: nat, run: RunInput)
    ensures var v := VerdictOf(cfg, t, past, id, run);
      if id >= |t.deliveries| then v == NotFound
      else
        var account := t.deliveries[id].account;
        var active := account in t.accounts && t.accounts[account].active;
        && (v == Inactive <==> !active)
        && (v == GuardRaised <==> active && !run.guardUp)
        && (v == CircuitOpen <==> active && run.guardUp && Rejects(cfg, past, run.checkedAt))
        && (v == FactoryRaised <==> active && run.guardUp && !Rejects(cfg, past, run.checkedAt) && !run.factoryUp)
        && (v == Answered <==> active && run.guardUp && !Rejects(cfg, past, run.checkedAt) && run.factoryUp)
  {
  }

  /** Every dead letter is retryable exactly when its reason code is transient, and repeats the row's last error. */
  lemma DeadLetterClassification(cfg: Config, d: Delivery, a: Answer, redisUp: bool, now: real, jitter: real)
    requires d.status == SENDING
    ensures var o := Settle(cfg, d, a, redisUp, now, jitter);
      && (o.deadLetter.Some? <==> o.row.status == FAILED)
      && (o.deadLetter.Some? ==>
            var e := o.deadLetter.value;
            && (e.retryable <==> IsTransient(e.reasonCode))
            && o.row.lastErrorCode == Some(e.reasonCode)
            && o.row.lastErrorMessage == Some(e.reasonMessage)
            && e.delivery == Some(o.row.id) && e.tenant == o.row.tenant && e.account == Some(o.row.account)
            && e.taskName == "send_document" && e.payloadBytes == None && e.replayedAt == None)
  {
    assert TRANSIENT_PREFIXES[0] <= "PROVIDER_TRANSIENT_ERROR";
    assert TRANSIENT_PREFIXES[1] <= "PROVIDER_RATE_LIMIT";
    PermanentCodes("PROVIDER_PERMANENT_ERROR");
    PermanentCodes("UNKNOWN_ERROR");
  }

  lemma PermanentCodes(code: string)
    requires code == "PROVIDER_PERMANENT_ERROR" || code == "UNKNOWN_ERROR"
    ensures !IsTransient(code)
  {
    assert "PROVIDER_PERMANENT_ERROR"[9] != TRANSIENT_PREFIXES[0][9];
    assert "PROVIDER_PERMANENT_ERROR"[9] != TRANSIENT_PREFIXES[1][9];
    assert "PROVIDER_PERMANENT_ERROR"[0] != TRANSIENT_PREFIXES[2][0];
    assert forall i :: 0 <= i < |TRANSIENT_PREFIXES| ==> "UNKNOWN_ERROR"[0] != TRANSIENT_PREFIXES[i][0];
  }
}
