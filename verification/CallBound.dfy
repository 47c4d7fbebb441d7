/** How often the provider can be called for one delivery, over its whole life. */
module CallBound {
  import opened Core
  import opened Deliveries
  import opened Store
  import opened Documents
  import opened System
  import opened Ledgers
  import opened Resending

  // ---- What can still lead to a call ----

  function LiveTaskOf(d: nat): Task -> bool {
    (task: Task) => task.message.delivery == Some(d) && task.phase.Live()
  }

  function Lives(s: State, d: nat): nat {
    Count(s.tasks, LiveTaskOf(d))
  }

  /** The live messages of delivery d, or the one to come: its first, or the dispatch of a PENDING row. */
  function Potential(s: State, d: nat): nat {
    if d >= |s.tables.deliveries| then Lives(s, d) + 1
    else if Lives(s, d) == 0 && s.tables.deliveries[d].status == PENDING then 1
    else Lives(s, d)
  }

  function NamesOf(d: nat): Message -> bool {
    (m: Message) => m.delivery == Some(d)
  }

  /**
   * Messages a step puts in the queue beyond the first of delivery d and one for each retry: forced
   * retries, replays, dispatches while a message is still live, and redeliveries of a finished run.
   */
  function Extra(cfg: Config, s: State, step: Step, d: nat): nat {
    if !Enabled(cfg, s, step) then 0
    else match step
      case Submit(_, _) => 0
      case DispatchDue(_, _) => if step.delivery == d && Lives(s, d) > 0 then 1 else 0
      case Crash(t) => if s.tasks[t].phase.Ended? && s.tasks[t].message.delivery == Some(d) then 1 else 0
      case _ => if IsPublishing(step) then Count(Published(s, step).1, NamesOf(d)) else 0
  }

  function Extras(cfg: Config, s: State, steps: seq<Step>, d: nat): nat
    decreases |steps|
  {
    if steps == [] then 0 else Extra(cfg, s, steps[0], d) + Extras(cfg, Next(cfg, s, steps[0]), steps[1..], d)
  }

  /** An answer after which no retry is scheduled. */
  function ClosesFor(cfg: Config, d: nat): RunRecord -> bool {
    (r: RunRecord) => r.Attempt? && r.row.id == d && !Schedules(cfg, r)
  }

  function Closed(cfg: Config, s: State, d: nat): nat {
    Count(s.history, ClosesFor(cfg, d))
  }

  // ---- Publishing steps ----

  lemma {:induction false} NewTasksLive(tasks: seq<Task>, messages: seq<Message>, d: nat)
    ensures Count(tasks + seq(|messages|, k requires 0 <= k < |messages| => Task(messages[k], Queued)), LiveTaskOf(d))
         == Count(tasks, LiveTaskOf(d)) + Count(messages, NamesOf(d))
  {
    var more := seq(|messages|, k requires 0 <= k < |messages| => Task(messages[k], Queued));
    if messages == [] {
      assert tasks + more == tasks;
    } else {
      var n := |messages| - 1;
      var fewer := seq(n, k requires 0 <= k < n => Task(messages[..n][k], Queued));
      NewTasksLive(tasks, messages[..n], d);
      assert tasks + more == (tasks + fewer) + [Task(messages[n], Queued)];
      CountAppend(tasks + fewer, Task(messages[n], Queued), LiveTaskOf(d));
    }
  }

  lemma CountOne(m: Message, d: nat)
    ensures Count([m], NamesOf(d)) == if m.delivery == Some(d) then 1 else 0
  {
    CountAppend([], m, NamesOf(d));
    assert [] + [m] == [m];
  }

  /** New messages for d are the first one of a new row, a due dispatch, or extra; a row made PENDING has one. */
  ghost predicate Announces(s: State, tables: Tables, messages: seq<Message>, d: nat, extra: nat) {
    var named := Count(messages, NamesOf(d));
    && |tables.deliveries| >= |s.tables.deliveries|
    && if d < |s.tables.deliveries| then
         && (tables.deliveries[d].status == PENDING ==> s.tables.deliveries[d].status == PENDING || named > 0)
         && (named <= extra || (named == 1 && Lives(s, d) == 0 && s.tables.deliveries[d].status == PENDING))
       else named <= extra + if d < |tables.deliveries| then 1 else 0
  }

  lemma PublishPotential(s: State, tables: Tables, messages: seq<Message>, d: nat, extra: nat)
    requires Announces(s, tables, messages, d, extra)
    ensures Potential(Publish(s, messages).(tables := tables), d) <= Potential(s, d) + extra
  {
    NewTasksLive(s.tasks, messages, d);
  }

  lemma PublishedAnnounces(cfg: Config, s: State, step: Step, d: nat)
    requires IsPublishing(step) && Enabled(cfg, s, step)
    ensures Announces(s, Published(s, step).0, Published(s, step).1, d, Extra(cfg, s, step, d))
  {
    var messages := Published(s, step).1;
    match step {
      case Submit(req, _) =>
        if messages != [] {
          CountOne(messages[0], d);
          assert messages == [messages[0]];
        }
      case DispatchDue(_, _) => CountOne(messages[0], d);
      case Retry(document, _) => RequeuedIsNamed(s.tables.deliveries, document, d);
      case _ =>
    }
  }

  lemma RequeuedIsNamed(rows: seq<Delivery>, document: nat, d: nat)
    ensures d < |rows| && FailedFor(rows[d], document) ==>
      Count(Documents.Resends(FailedOf(rows, document)), NamesOf(d)) > 0
  {
    if d < |rows| && FailedFor(rows[d], document) {
      var ids := FailedOf(rows, document);
      var k :| 0 <= k < |ids| && ids[k] == d;
      CountMember(Documents.Resends(ids), k, NamesOf(d));
    }
  }

  lemma {:induction false} CountMember<T>(s: seq<T>, k: nat, p: T -> bool)
    requires k < |s| && p(s[k])
    ensures Count(s, p) > 0
  {
    if k < |s| - 1 {
      CountMember(s[..|s| - 1], k, p);
    }
  }

  // ---- Worker steps ----

  /** A worker's step closes or reschedules a delivery only by ending one of its live tasks. */
  ghost predicate Frugal(cfg: Config, s: State, t: nat, e: Effect, d: nat, extra: nat) {
    && t < |s.tasks|
    && var before, after := LiveTaskOf(d)(s.tasks[t]), LiveTaskOf(d)(s.tasks[t].(phase := e.phase));
       var commits := e.row.Some? && e.row.value.id == d;
       && (after && !before ==> extra >= 1)
       && (commits ==> before && d < |s.tables.deliveries|)
       && (e.record.Some? && ClosesFor(cfg, d)(e.record.value) ==>
             !after && commits && e.row.value.status != PENDING)
  }

  lemma WorkerEffectFrugal(cfg: Config, s: State, step: Step, d: nat)
    requires WellFormed(s) && Enabled(cfg, s, step) && !IsPublishing(step)
    ensures Frugal(cfg, s, step.t, WorkerEffect(cfg, s, step), d, Extra(cfg, s, step, d))
  {
  }

  lemma PerformPotential(cfg: Config, s: State, t: nat, e: Effect, d: nat, extra: nat)
    requires WellFormed(s) && Frugal(cfg, s, t, e, d, extra)
    ensures var s' := Perform(s, t, e);
      Closed(cfg, s', d) + Potential(s', d) <= Closed(cfg, s, d) + Potential(s, d) + extra
  {
    var task := s.tasks[t].(phase := e.phase);
    CountUpdate(s.tasks, t, task, LiveTaskOf(d));
    if LiveTaskOf(d)(s.tasks[t]) {
      CountMember(s.tasks, t, LiveTaskOf(d));
    }
    if e.record.Some? {
      CountAppend(s.history, e.record.value, ClosesFor(cfg, d));
    }
  }

  lemma StepPotential(cfg: Config, s: State, step: Step, d: nat)
    requires WellFormed(s)
    ensures var s' := Next(cfg, s, step);
      Closed(cfg, s', d) + Potential(s', d) <= Closed(cfg, s, d) + Potential(s, d) + Extra(cfg, s, step, d)
  {
    if Enabled(cfg, s, step) {
      if IsPublishing(step) {
        PublishedAnnounces(cfg, s, step, d);
        PublishPotential(s, Published(s, step).0, Published(s, step).1, d, Extra(cfg, s, step, d));
      } else {
        WorkerEffectFrugal(cfg, s, step, d);
        PerformPotential(cfg, s, step.t, WorkerEffect(cfg, s, step), d, Extra(cfg, s, step, d));
      }
    }
  }

  lemma {:induction false} RunPotential(cfg: Config, s: State, steps: seq<Step>, d: nat)
    requires WellFormed(s)
    ensures var s' := Exec(cfg, s, steps);
      Closed(cfg, s', d) + Potential(s', d) <= Closed(cfg, s, d) + Potential(s, d) + Extras(cfg, s, steps, d)
    decreases |steps|
  {
    if steps != [] {
      StepKeepsWellFormed(cfg, s, steps[0]);
      StepPotential(cfg, s, steps[0], d);
      RunPotential(cfg, Next(cfg, s, steps[0]), steps[1..], d);
    }
  }

  // ---- The bound ----

  lemma {:induction false} AttemptsRetryOrClose(cfg: Config, h: seq<RunRecord>, d: nat)
    ensures Count(h, AttemptsFor(d)) == Count(h, RetriesFor(cfg, d)) + Count(h, ClosesFor(cfg, d))
  {
    if h != [] {
      AttemptsRetryOrClose(cfg, h[..|h| - 1], d);
    }
  }

  lemma {:induction false} HoldersAreLive(tasks: seq<Task>, d: nat)
    requires forall t :: 0 <= t < |tasks| && tasks[t].phase.Replied? ==>
      tasks[t].message.delivery == Some(tasks[t].phase.row.id)
    ensures Count(tasks, HoldsAnswerOf(d)) <= Count(tasks, LiveTaskOf(d))
  {
    if tasks != [] {
      HoldersAreLive(tasks[..|tasks| - 1], d);
    }
  }

  /**
   * For every delivery and every run, workers overlapping or not: the provider answers at most one call more than
   * retries were scheduled, plus one for each extra message and one for each crash that lost an answer.
   */
  lemma CallsBounded(cfg: Config, accounts: map<nat, Account>, steps: seq<Step>, d: nat)
    ensures var s := Exec(cfg, Initial(accounts), steps);
      Count(s.calls, CallsFor(d))
      <= Retries(cfg, s, d) + 1
       + Extras(cfg, Initial(accounts), steps, d) + LostAnswers(cfg, Initial(accounts), steps, d)
  {
    var s := Exec(cfg, Initial(accounts), steps);
    RunKeepsWellFormed(cfg, Initial(accounts), steps);
    RunPotential(cfg, Initial(accounts), steps, d);
    RunKeepsCallsBalance(cfg, Initial(accounts), steps, d, 0);
    AttemptsRetryOrClose(cfg, s.history, d);
    HoldersAreLive(s.tasks, d);
  }

  /** With one worker at a time per delivery the retries are within the budget, so the bound is a number. */
  lemma SerialCallsBounded(cfg: Config, accounts: map<nat, Account>, steps: seq<Step>, d: nat)
    requires SerialRun(cfg, Initial(accounts), steps)
    ensures var s := Exec(cfg, Initial(accounts), steps);
      Count(s.calls, CallsFor(d))
      <= (if cfg.maxAttempts > 0 then cfg.maxAttempts else 0) + 1
       + Extras(cfg, Initial(accounts), steps, d) + LostAnswers(cfg, Initial(accounts), steps, d)
  {
    CallsBounded(cfg, accounts, steps, d);
    RunKeepsBudget(cfg, Initial(accounts), steps);
  }

  /** No forced retry, replay or crash, and no dispatch of d while one of its messages is live. */
  ghost predicate LeftAlone(cfg: Config, s: State, steps: seq<Step>, d: nat)
    decreases |steps|
  {
    steps == [] || (
      && !steps[0].Retry? && !steps[0].ManualReplay? && !steps[0].AutoReplay? && !steps[0].Crash?
      && (steps[0].DispatchDue? && steps[0].delivery == d ==> Lives(s, d) == 0)
      && LeftAlone(cfg, Next(cfg, s, steps[0]), steps[1..], d))
  }

  lemma {:induction false} NothingExtra(cfg: Config, s: State, steps: seq<Step>, d: nat)
    requires LeftAlone(cfg, s, steps, d)
    ensures Extras(cfg, s, steps, d) == 0 && LostAnswers(cfg, s, steps, d) == 0
    decreases |steps|
  {
    if steps != [] {
      NothingExtra(cfg, Next(cfg, s, steps[0]), steps[1..], d);
    }
  }

  /** Left to itself, Redis failing or not, a delivery is called at most max_attempts + 1 times. */
  lemma CallsBoundedIfLeftAlone(cfg: Config, accounts: map<nat, Account>, steps: seq<Step>, d: nat)
    requires SerialRun(cfg, Initial(accounts), steps) && LeftAlone(cfg, Initial(accounts), steps, d)
    ensures Count(Exec(cfg, Initial(accounts), steps).calls, CallsFor(d))
         <= (if cfg.maxAttempts > 0 then cfg.maxAttempts else 0) + 1
  {
    SerialCallsBounded(cfg, accounts, steps, d);
    NothingExtra(cfg, Initial(accounts), steps, d);
  }
}
