/** One delivery's runs: agreement with the worker's method, crashes and redelivery, and redispatch. */
module Crashes {
  import opened Core
  import opened Backoff
  import opened Deliveries
  import opened Store
  import opened Worker
  import opened Documents
  import opened System

  predicate QueuedFor(s: State, t: nat, d: nat) {
    && t < |s.tasks| && s.tasks[t] == Task(s.tasks[t].message, Queued)
    && s.tasks[t].message.delivery == Some(d)
    && d < |s.tables.deliveries| && s.tables.deliveries[d].id == d
  }

  // ---- The worker's method is these steps run alone ----

  function AloneSteps(t: nat, verdict: Verdict, run: RunInput): seq<Step> {
    match verdict
    case NotFound => [Load(t)]
    case Inactive => [Load(t), FailInactive(t, run.checkedAt)]
    case GuardRaised => [Load(t), Abort(t)]
    case CircuitOpen => [Load(t), RejectOpen(t, run.checkedAt, run.jitter)]
    case FactoryRaised => [Load(t), BeginSending(t, run.checkedAt), Abort(t)]
    case Answered =>
      [Load(t), BeginSending(t, run.checkedAt), AnswerCall(t, run.answer),
       Finish(t, run.redisUp, run.answeredAt, run.jitter)]
  }

  /** The tables after a run's last commit. */
  function LastCommit(cfg: Config, tables: Tables, d: nat, verdict: Verdict, run: RunInput): Tables {
    var commits := Commits(cfg, tables, d, verdict, run);
    if commits == [] then tables else commits[|commits| - 1]
  }

  /** The answer a run gets from the provider, if it gets that far. */
  function CallsOf(d: nat, verdict: Verdict, run: RunInput): seq<ProviderCall> {
    if verdict.Answered? then [ProviderCall(d, run.answer)] else []
  }

  function AtPhase(s: State, t: nat, phase: Phase): seq<Task>
    requires t < |s.tasks|
  {
    s.tasks[t := s.tasks[t].(phase := phase)]
  }

  /** The state after Load, and after Load and BeginSending. */
  function JustLoaded(s: State, t: nat, d: nat): State
    requires QueuedFor(s, t, d)
  {
    s.(tasks := AtPhase(s, t, Loaded(s.tables.deliveries[d])))
  }

  function JustSending(s: State, t: nat, d: nat, now: real): State
    requires QueuedFor(s, t, d)
  {
    var row := s.tables.deliveries[d].MarkedSending(now);
    s.(tasks := AtPhase(s, t, Calling(row)), tables := s.tables.WithDelivery(row))
  }

  function JustReplied(s: State, t: nat, d: nat, now: real, answer: Answer): State
    requires QueuedFor(s, t, d)
  {
    var row := s.tables.deliveries[d].MarkedSending(now);
    s.(tasks := AtPhase(s, t, Replied(row, answer)), tables := s.tables.WithDelivery(row),
       calls := s.calls + [ProviderCall(d, answer)])
  }

  lemma ReachLoaded(cfg: Config, s: State, t: nat, d: nat)
    requires QueuedFor(s, t, d)
    ensures Next(cfg, s, Load(t)) == JustLoaded(s, t, d)
  {
  }

  lemma ReachSending(cfg: Config, s: State, t: nat, d: nat, now: real)
    requires QueuedFor(s, t, d)
    ensures Next(cfg, JustLoaded(s, t, d), BeginSending(t, now)) == JustSending(s, t, d, now)
  {
    var row := s.tables.deliveries[d].MarkedSending(now);
    assert AtPhase(JustLoaded(s, t, d), t, Calling(row)) == JustSending(s, t, d, now).tasks;
  }

  lemma ReachReplied(cfg: Config, s: State, t: nat, d: nat, now: real, answer: Answer)
    requires QueuedFor(s, t, d)
    ensures Next(cfg, JustSending(s, t, d, now), AnswerCall(t, answer)) == JustReplied(s, t, d, now, answer)
  {
    var row := s.tables.deliveries[d].MarkedSending(now);
    assert AtPhase(JustSending(s, t, d, now), t, Replied(row, answer)) == JustReplied(s, t, d, now, answer).tasks;
  }

  lemma FinishIsOutcome(cfg: Config, s: State, t: nat, run: RunInput)
    requires IsReplied(s, t) && s.tasks[t].phase.answer == run.answer
    requires JitterInRange(cfg, s.tasks[t].phase.row.retryCount, run.jitter)
    ensures var s' := Next(cfg, s, Finish(t, run.redisUp, run.answeredAt, run.jitter));
      var row := s.tasks[t].phase.row;
      && s'.tables == Settle(cfg, row, run.answer, run.redisUp, run.answeredAt, run.jitter).On(s.tables)
      && s'.tasks == AtPhase(s, t, Ended)
      && s'.history == s.history + [Attempt(row, run.answer, run.redisUp, run.answeredAt, run.jitter)]
      && s'.calls == s.calls
  {
    var o := Settle(cfg, s.tasks[t].phase.row, run.answer, run.redisUp, run.answeredAt, run.jitter);
    assert Appended(s.tables.dlq, o.deadLetter)
        == s.tables.dlq + if o.deadLetter.Some? then [o.deadLetter.value] else [];
  }

  lemma AnsweredAlone(cfg: Config, s: State, t: nat, d: nat, run: RunInput)
    requires QueuedFor(s, t, d) && JitterInRange(cfg, s.tables.deliveries[d].retryCount, run.jitter)
    ensures var s' := Exec(cfg, s, AloneSteps(t, Answered, run));
      var row := s.tables.deliveries[d].MarkedSending(run.checkedAt);
      && s'.tables == LastCommit(cfg, s.tables, d, Answered, run)
      && s'.tasks == AtPhase(s, t, Ended)
      && s'.history == s.history + [Attempt(row, run.answer, run.redisUp, run.answeredAt, run.jitter)]
      && s'.calls == s.calls + [ProviderCall(d, run.answer)]
  {
    ExecFour(cfg, s, Load(t), BeginSending(t, run.checkedAt), AnswerCall(t, run.answer),
             Finish(t, run.redisUp, run.answeredAt, run.jitter));
    ReachLoaded(cfg, s, t, d);
    ReachSending(cfg, s, t, d, run.checkedAt);
    ReachReplied(cfg, s, t, d, run.checkedAt, run.answer);
    var s3 := JustReplied(s, t, d, run.checkedAt, run.answer);
    FinishIsOutcome(cfg, s3, t, run);
    assert AtPhase(s3, t, Ended) == AtPhase(s, t, Ended);
  }

  lemma EndedEarlyAlone(cfg: Config, s: State, t: nat, d: nat, verdict: Verdict, run: RunInput)
    requires QueuedFor(s, t, d) && JitterInRange(cfg, s.tables.deliveries[d].retryCount, run.jitter)
    requires verdict.Inactive? || verdict.GuardRaised? || verdict.CircuitOpen?
    ensures var s' := Exec(cfg, s, AloneSteps(t, verdict, run));
      && s'.tables == LastCommit(cfg, s.tables, d, verdict, run)
      && s'.tasks == AtPhase(s, t, Ended)
      && s'.calls == s.calls
  {
    var last := AloneSteps(t, verdict, run)[1];
    ExecTwo(cfg, s, Load(t), last);
    ReachLoaded(cfg, s, t, d);
    var s1 := JustLoaded(s, t, d);
    assert Next(cfg, s1, last) == Perform(s1, t, WorkerEffect(cfg, s1, last));
    assert AtPhase(s1, t, Ended) == AtPhase(s, t, Ended);
  }

  lemma FactoryRaisedAlone(cfg: Config, s: State, t: nat, d: nat, run: RunInput)
    requires QueuedFor(s, t, d)
    ensures var s' := Exec(cfg, s, AloneSteps(t, FactoryRaised, run));
      && s'.tables == LastCommit(cfg, s.tables, d, FactoryRaised, run)
      && s'.tasks == AtPhase(s, t, Ended)
      && s'.calls == s.calls
  {
    ExecThree(cfg, s, Load(t), BeginSending(t, run.checkedAt), Abort(t));
    ReachLoaded(cfg, s, t, d);
    ReachSending(cfg, s, t, d, run.checkedAt);
    assert AtPhase(JustSending(s, t, d, run.checkedAt), t, Ended) == AtPhase(s, t, Ended);
  }

  /** SendDocument's last commit is what the interleaved steps leave when nobody interferes, whatever the verdict. */
  lemma WorkerIsStepsAlone(cfg: Config, s: State, t: nat, d: nat, verdict: Verdict, run: RunInput)
    requires QueuedFor(s, t, d) && !verdict.NotFound?
    requires JitterInRange(cfg, s.tables.deliveries[d].retryCount, run.jitter)
    ensures var s' := Exec(cfg, s, AloneSteps(t, verdict, run));
      && s'.tables == LastCommit(cfg, s.tables, d, verdict, run)
      && s'.tasks == s.tasks[t := s.tasks[t].(phase := Ended)]
      && s'.calls == s.calls + CallsOf(d, verdict, run)
  {
    if verdict.Answered? {
      AnsweredAlone(cfg, s, t, d, run);
    } else if verdict.FactoryRaised? {
      FactoryRaisedAlone(cfg, s, t, d, run);
    } else {
      EndedEarlyAlone(cfg, s, t, d, verdict, run);
    }
  }

  /** A message for a delivery that is not stored ends its run: nothing is committed, called or reported. */
  lemma UnknownEndsAlone(cfg: Config, s: State, t: nat, run: RunInput)
    requires t < |s.tasks| && s.tasks[t].phase.Queued?
    requires var d := s.tasks[t].message.delivery; d.None? || d.value >= |s.tables.deliveries|
    ensures var s' := Exec(cfg, s, AloneSteps(t, NotFound, run));
      s' == s.(tasks := s.tasks[t := s.tasks[t].(phase := Ended)])
  {
    ExecOne(cfg, s, Load(t));
  }

  // ---- Crashes before the outcome commit ----

  /** Rows of one delivery that differ in nothing but status and updatedAt. */
  predicate SameButStatus(a: Delivery, b: Delivery) {
    a == b.(status := a.status, updatedAt := a.updatedAt)
  }

  /** A step of task t that a run takes before it dies. */
  predicate DyingStep(step: Step, t: nat) {
    (step.Load? || step.BeginSending? || step.AnswerCall? || step.Crash?) && step.t == t
  }

  /** A step that neither touches delivery d nor depends on its status. */
  predicate Foreign(s: State, step: Step, t: nat, d: nat) {
    match step
    case Submit(_, _) => true
    case ManualReplay(_, _, _) => true
    case AutoReplay(_, _) => true
    case DispatchDue(other, _) => other != d
    case Retry(document, _) => d < |s.tables.deliveries| && s.tables.deliveries[d].document != document
    case _ =>
      step.t != t && (step.t < |s.tasks| ==>
        && s.tasks[step.t].message.delivery != Some(d)
        && (s.tasks[step.t].phase.Active() ==> s.tasks[step.t].phase.row.id != d))
  }

  /** Runs of task t that die, between any steps that do not concern its delivery. */
  ghost predicate DyingRuns(cfg: Config, s: State, steps: seq<Step>, t: nat, d: nat)
    decreases |steps|
  {
    steps == [] || (
      && ((DyingStep(steps[0], t) && Enabled(cfg, s, steps[0])) || Foreign(s, steps[0], t, d))
      && DyingRuns(cfg, Next(cfg, s, steps[0]), steps[1..], t, d))
  }

  /** The same steps without those of task t. */
  function Others(steps: seq<Step>, t: nat): seq<Step> {
    if steps == [] then []
    else (if DyingStep(steps[0], t) then [] else [steps[0]]) + Others(steps[1..], t)
  }

  function RowAfter(row: Delivery, step: Step, t: nat): Delivery {
    if step.BeginSending? && step.t == t then row.MarkedSending(step.now) else row
  }

  /** The row dying runs leave: SENDING since the last of them began sending. */
  function RowLeft(row: Delivery, steps: seq<Step>, t: nat): Delivery
    decreases |steps|
  {
    if steps == [] then row else RowLeft(RowAfter(row, steps[0], t), steps[1..], t)
  }

  function AnswerLost(step: Step, t: nat, d: nat): multiset<ProviderCall> {
    if step.AnswerCall? && step.t == t then multiset{ProviderCall(d, step.answer)} else multiset{}
  }

  /** The answers dying runs were given. */
  function AnswersLost(steps: seq<Step>, t: nat, d: nat): multiset<ProviderCall>
    decreases |steps|
  {
    if steps == [] then multiset{} else AnswerLost(steps[0], t, d) + AnswersLost(steps[1..], t, d)
  }

  /** The states differ at most in the status of row d, in the phase of task t, in the history and in `lost` calls. */
  ghost predicate Alike(s: State, s': State, t: nat, d: nat, lost: multiset<ProviderCall>) {
    && d < |s'.tables.deliveries| && s'.tables.deliveries[d].id == d
    && d < |s.tables.deliveries| && SameButStatus(s.tables.deliveries[d], s'.tables.deliveries[d])
    && s.tables == s'.tables.(deliveries := s'.tables.deliveries[d := s.tables.deliveries[d]])
    && t < |s'.tasks| && s'.tasks[t].message.delivery == Some(d)
    && t < |s.tasks| && s.tasks == s'.tasks[t := s'.tasks[t].(phase := s.tasks[t].phase)]
    && multiset(s.calls) == multiset(s'.calls) + lost
  }

  /** `s` is `s'` but for what the dying runs of task t have done to delivery d. */
  ghost predicate Shadows(s: State, s': State, t: nat, d: nat, lost: multiset<ProviderCall>) {
    && Alike(s, s', t, d, lost)
    && s.history == s'.history
    && s'.tasks[t].phase.Queued?
    && (s.tasks[t].phase.Queued? || s.tasks[t].phase.Active())
    && (s.tasks[t].phase.Active() ==> SameButStatus(s.tasks[t].phase.row, s'.tables.deliveries[d]))
  }

  /** What a dying run's step commits: at most the row marked SENDING. */
  ghost predicate Dying(row: Delivery, e: Effect) {
    && e.record.None? && e.deadLetter.None? && e.audit.None?
    && (e.row.Some? ==> SameButStatus(e.row.value, row))
    && (e.phase.Queued? || (e.phase.Active() && SameButStatus(e.phase.row, row)))
  }

  function AnswerOf(e: Effect): multiset<ProviderCall> {
    if e.call.Some? then multiset{e.call.value} else multiset{}
  }

  lemma PerformShadows(s: State, s': State, t: nat, e: Effect, d: nat, lost: multiset<ProviderCall>)
    requires Shadows(s, s', t, d, lost) && Dying(s'.tables.deliveries[d], e)
    ensures Shadows(Perform(s, t, e), s', t, d, lost + AnswerOf(e))
    ensures Perform(s, t, e).tables.deliveries[d] == if e.row.Some? then e.row.value else s.tables.deliveries[d]
  {
    var n, rows := Perform(s, t, e), s'.tables.deliveries;
    assert n.tasks == s'.tasks[t := s'.tasks[t].(phase := e.phase)];
    assert s.tables.deliveries == rows[d := s.tables.deliveries[d]];
    assert n.tables.deliveries == rows[d := n.tables.deliveries[d]];
  }

  lemma DyingStepEffect(cfg: Config, s: State, s': State, step: Step, t: nat, d: nat, lost: multiset<ProviderCall>)
    requires Shadows(s, s', t, d, lost) && DyingStep(step, t) && Enabled(cfg, s, step)
    ensures var e := WorkerEffect(cfg, s, step);
      && Dying(s'.tables.deliveries[d], e)
      && AnswerOf(e) == AnswerLost(step, t, d)
      && e.row == if step.BeginSending? then Some(s.tables.deliveries[d].MarkedSending(step.now)) else None
  {
  }

  lemma DyingStepShadows(cfg: Config, s: State, s': State, step: Step, t: nat, d: nat, lost: multiset<ProviderCall>)
    requires Shadows(s, s', t, d, lost) && DyingStep(step, t) && Enabled(cfg, s, step)
    ensures var n := Next(cfg, s, step);
      && Shadows(n, s', t, d, lost + AnswerLost(step, t, d))
      && n.tables.deliveries[d] == RowAfter(s.tables.deliveries[d], step, t)
  {
    DyingStepEffect(cfg, s, s', step, t, d, lost);
    PerformShadows(s, s', t, WorkerEffect(cfg, s, step), d, lost);
  }

  // ---- Steps that do not concern the delivery ----

  lemma {:induction false} FailedElsewhere(rows: seq<Delivery>, d: nat, row: Delivery, document: nat)
    requires d < |rows| && rows[d].document != document && row.document != document
    ensures FailedOf(rows[d := row], document) == FailedOf(rows, document)
  {
    var n := |rows| - 1;
    if d == n {
      assert rows[d := row][..n] == rows[..n];
    } else {
      assert rows[d := row][..n] == rows[..n][d := row];
      FailedElsewhere(rows[..n], d, row, document);
    }
  }

  /** Tables that differ in the status of row d only. */
  ghost predicate AlikeTables(a: Tables, b: Tables, d: nat) {
    && d < |a.deliveries| && d < |b.deliveries|
    && SameButStatus(a.deliveries[d], b.deliveries[d])
    && a == b.(deliveries := b.deliveries[d := a.deliveries[d]])
  }

  lemma ForeignPublishes(cfg: Config, s: State, s': State, step: Step, t: nat, d: nat)
    requires AlikeTables(s.tables, s'.tables, d) && IsPublishing(step) && Foreign(s, step, t, d)
    ensures Enabled(cfg, s, step) <==> Enabled(cfg, s', step)
    ensures Published(s, step).1 == Published(s', step).1
    ensures var a, b := Published(s, step).0, Published(s', step).0;
      && AlikeTables(a, b, d)
      && a.deliveries[d] == s.tables.deliveries[d] && b.deliveries[d] == s'.tables.deliveries[d]
  {
    if step.Retry? {
      FailedElsewhere(s'.tables.deliveries, d, s.tables.deliveries[d], step.document);
    }
    var a, b := Published(s, step).0, Published(s', step).0;
    assert a.deliveries == b.deliveries[d := a.deliveries[d]];
  }

  /** What a step may not change if it does not concern the delivery. */
  ghost predicate LeavesAlone(s: State, n: State, t: nat, d: nat)
    requires t < |s.tasks| && d < |s.tables.deliveries|
  {
    && t < |n.tasks| && n.tasks[t] == s.tasks[t]
    && d < |n.tables.deliveries| && n.tables.deliveries[d] == s.tables.deliveries[d]
  }

  lemma PublishAlike(s: State, s': State, t: nat, d: nat, lost: multiset<ProviderCall>,
                     a: Tables, b: Tables, messages: seq<Message>)
    requires Alike(s, s', t, d, lost) && AlikeTables(a, b, d)
    requires a.deliveries[d] == s.tables.deliveries[d] && b.deliveries[d] == s'.tables.deliveries[d]
    ensures var n, n' := Publish(s, messages).(tables := a), Publish(s', messages).(tables := b);
      Alike(n, n', t, d, lost) && LeavesAlone(s, n, t, d) && LeavesAlone(s', n', t, d)
  {
    var n, n' := Publish(s, messages).(tables := a), Publish(s', messages).(tables := b);
    assert n.tasks == n'.tasks[t := n'.tasks[t].(phase := n.tasks[t].phase)];
  }

  lemma ForeignWorks(cfg: Config, s: State, s': State, step: Step, t: nat, d: nat, lost: multiset<ProviderCall>)
    requires Alike(s, s', t, d, lost) && !IsPublishing(step) && Foreign(s, step, t, d)
    ensures Enabled(cfg, s, step) <==> Enabled(cfg, s', step)
    ensures Enabled(cfg, s, step) ==>
      var e := WorkerEffect(cfg, s, step);
      e == WorkerEffect(cfg, s', step) && (e.row.Some? ==> e.row.value.id != d)
  {
    assert step.t < |s.tasks| ==> s.tasks[step.t] == s'.tasks[step.t];
  }

  lemma PerformAlike(s: State, s': State, u: nat, e: Effect, t: nat, d: nat, lost: multiset<ProviderCall>)
    requires Alike(s, s', t, d, lost) && u != t && u < |s.tasks| && (e.row.Some? ==> e.row.value.id != d)
    ensures var n, n' := Perform(s, u, e), Perform(s', u, e);
      Alike(n, n', t, d, lost) && LeavesAlone(s, n, t, d) && LeavesAlone(s', n', t, d)
  {
    var n, n' := Perform(s, u, e), Perform(s', u, e);
    assert n.tasks == n'.tasks[t := n'.tasks[t].(phase := n.tasks[t].phase)];
    assert n.tables.deliveries == n'.tables.deliveries[d := n.tables.deliveries[d]];
  }

  lemma ForeignKeepsAlike(cfg: Config, s: State, s': State, step: Step, t: nat, d: nat, lost: multiset<ProviderCall>)
    requires Alike(s, s', t, d, lost) && Foreign(s, step, t, d)
    ensures var n, n' := Next(cfg, s, step), Next(cfg, s', step);
      && Alike(n, n', t, d, lost) && LeavesAlone(s, n, t, d) && LeavesAlone(s', n', t, d)
      && (s.history == s'.history ==> n.history == n'.history)
  {
    if IsPublishing(step) {
      ForeignPublishes(cfg, s, s', step, t, d);
      PublishAlike(s, s', t, d, lost, Published(s, step).0, Published(s', step).0, Published(s, step).1);
    } else {
      ForeignWorks(cfg, s, s', step, t, d, lost);
      if Enabled(cfg, s, step) {
        PerformAlike(s, s', step.t, WorkerEffect(cfg, s, step), t, d, lost);
      }
    }
  }

  // ---- The dying runs, and what follows them ----

  lemma {:induction false} DyingRunsShadow(cfg: Config, s: State, s': State, steps: seq<Step>, t: nat, d: nat,
                                          lost: multiset<ProviderCall>)
    requires Shadows(s, s', t, d, lost) && DyingRuns(cfg, s, steps, t, d)
    ensures var n, n' := Exec(cfg, s, steps), Exec(cfg, s', Others(steps, t));
      && Shadows(n, n', t, d, lost + AnswersLost(steps, t, d))
      && n.tables.deliveries[d] == RowLeft(s.tables.deliveries[d], steps, t)
      && n'.tables.deliveries[d] == s'.tables.deliveries[d]
    decreases |steps|
  {
    if steps != [] {
      var step, rest, others := steps[0], steps[1..], Others(steps[1..], t);
      var n' := if DyingStep(step, t) then s' else Next(cfg, s', step);
      ShadowStep(cfg, s, s', step, t, d, lost);
      DyingRunsShadow(cfg, Next(cfg, s, step), n', rest, t, d, lost + AnswerLost(step, t, d));
      OthersRun(cfg, s', steps, t);
    }
  }

  lemma OthersRun(cfg: Config, s: State, steps: seq<Step>, t: nat)
    requires steps != []
    ensures Exec(cfg, s, Others(steps, t))
         == Exec(cfg, if DyingStep(steps[0], t) then s else Next(cfg, s, steps[0]), Others(steps[1..], t))
  {
    var others := Others(steps[1..], t);
    assert [] + others == others;
    ExecSplit(cfg, s, [steps[0]], others);
    ExecOne(cfg, s, steps[0]);
  }

  lemma ShadowStep(cfg: Config, s: State, s': State, step: Step, t: nat, d: nat, lost: multiset<ProviderCall>)
    requires Shadows(s, s', t, d, lost)
    requires (DyingStep(step, t) && Enabled(cfg, s, step)) || Foreign(s, step, t, d)
    ensures var n, n' := Next(cfg, s, step), if DyingStep(step, t) then s' else Next(cfg, s', step);
      && Shadows(n, n', t, d, lost + AnswerLost(step, t, d))
      && n.tables.deliveries[d] == RowAfter(s.tables.deliveries[d], step, t)
      && n'.tables.deliveries[d] == s'.tables.deliveries[d]
  {
    if DyingStep(step, t) {
      DyingStepShadows(cfg, s, s', step, t, d, lost);
    } else {
      ForeignKeepsAlike(cfg, s, s', step, t, d, lost);
      assert lost + multiset{} == lost;
    }
  }

  // ---- The run that follows ----

  predicate IsQueued(s: State, t: nat) {
    t < |s.tasks| && s.tasks[t].phase.Queued?
  }

  predicate OwnStep(step: Step, t: nat) {
    !IsPublishing(step) && step.t == t
  }

  predicate IsCommit(step: Step, t: nat) {
    (step.FailInactive? || step.RejectOpen? || step.BeginSending? || step.Finish?) && step.t == t
  }

  /** Any steps of task t, between any steps that do not concern its delivery. */
  ghost predicate Undisturbed(cfg: Config, s: State, steps: seq<Step>, t: nat, d: nat)
    decreases |steps|
  {
    steps == [] || (
      && (OwnStep(steps[0], t) || Foreign(s, steps[0], t, d))
      && Undisturbed(cfg, Next(cfg, s, steps[0]), steps[1..], t, d))
  }

  /** Task t commits something. */
  predicate CommitsIn(cfg: Config, s: State, steps: seq<Step>, t: nat)
    decreases |steps|
  {
    steps != [] && (
      || (Enabled(cfg, s, steps[0]) && IsCommit(steps[0], t))
      || CommitsIn(cfg, Next(cfg, s, steps[0]), steps[1..], t))
  }

  predicate AlikePhases(a: Phase, b: Phase) {
    a == b || (a.Loaded? && b.Loaded? && SameButStatus(a.row, b.row))
  }

  /** The same point of the same run of task t, with and without the crashes before it. */
  ghost predicate Paired(s: State, s': State, t: nat, d: nat, lost: multiset<ProviderCall>) {
    && Alike(s, s', t, d, lost)
    && AlikePhases(s.tasks[t].phase, s'.tasks[t].phase)
    && (s.tasks[t].phase.Active() ==> s.tasks[t].phase.row.id == d)
  }

  predicate SameDatabase(s: State, s': State) {
    s.tables == s'.tables && s.tasks == s'.tasks
  }

  /** Effects that differ in a loaded copy's status only, and agree on what is committed. */
  ghost predicate AlikeEffects(e: Effect, e': Effect, d: nat) {
    && AlikePhases(e.phase, e'.phase) && (e.phase.Active() ==> e.phase.row.id == d)
    && e.row == e'.row && (e.row.Some? ==> e.row.value.id == d && e.phase == e'.phase)
    && e.deadLetter == e'.deadLetter && e.audit == e'.audit && e.call == e'.call
    && e.record.Some? == e'.record.Some?
  }

  lemma OwnEffects(cfg: Config, s: State, s': State, step: Step, t: nat, d: nat, lost: multiset<ProviderCall>)
    requires Paired(s, s', t, d, lost) && OwnStep(step, t)
    ensures Enabled(cfg, s, step) <==> Enabled(cfg, s', step)
    ensures Enabled(cfg, s, step) ==>
      var e, e' := WorkerEffect(cfg, s, step), WorkerEffect(cfg, s', step);
      && AlikeEffects(e, e', d)
      && (e.row.Some? <==> IsCommit(step, t))
      && (!step.RejectOpen? ==> e.record == e'.record)
  {
  }

  lemma PerformPaired(s: State, s': State, t: nat, e: Effect, e': Effect, d: nat, lost: multiset<ProviderCall>)
    requires Paired(s, s', t, d, lost) && AlikeEffects(e, e', d)
    ensures var n, n' := Perform(s, t, e), Perform(s', t, e');
      && Paired(n, n', t, d, lost)
      && (e.row.Some? ==> SameDatabase(n, n'))
      && (e.row.None? ==> n.tables.deliveries == s.tables.deliveries && n'.tables.deliveries == s'.tables.deliveries)
  {
    var n, n' := Perform(s, t, e), Perform(s', t, e');
    assert n.tasks == n'.tasks[t := n'.tasks[t].(phase := n.tasks[t].phase)];
    assert n.tables.deliveries == n'.tables.deliveries[d := n.tables.deliveries[d]];
  }

  lemma PairStep(cfg: Config, s: State, s': State, step: Step, t: nat, d: nat, lost: multiset<ProviderCall>)
    requires Paired(s, s', t, d, lost) && (OwnStep(step, t) || Foreign(s, step, t, d))
    ensures var n, n' := Next(cfg, s, step), Next(cfg, s', step);
      && Paired(n, n', t, d, lost)
      && (if Enabled(cfg, s, step) && IsCommit(step, t)
          then SameDatabase(n, n')
          else && n.tables.deliveries[d] == s.tables.deliveries[d]
               && n'.tables.deliveries[d] == s'.tables.deliveries[d])
      && (s.history == s'.history && !(step.RejectOpen? && step.t == t) ==> n.history == n'.history)
  {
    if OwnStep(step, t) {
      OwnEffects(cfg, s, s', step, t, d, lost);
      if Enabled(cfg, s, step) {
        PerformPaired(s, s', t, WorkerEffect(cfg, s, step), WorkerEffect(cfg, s', step), d, lost);
      }
    } else {
      ForeignKeepsAlike(cfg, s, s', step, t, d, lost);
    }
  }

  lemma NextIgnoresRecords(cfg: Config, s: State, s': State, step: Step)
    requires SameDatabase(s, s')
    ensures SameDatabase(Next(cfg, s, step), Next(cfg, s', step))
  {
    if IsPublishing(step) {
      assert Published(s, step) == Published(s', step);
    } else if Enabled(cfg, s, step) {
      assert WorkerEffect(cfg, s, step) == WorkerEffect(cfg, s', step);
    }
  }

  ghost predicate NeverRejected(steps: seq<Step>, t: nat) {
    forall k :: 0 <= k < |steps| ==> !(steps[k].RejectOpen? && steps[k].t == t)
  }

  lemma {:induction false} PairRun(cfg: Config, s: State, s': State, steps: seq<Step>, t: nat, d: nat,
                                  lost: multiset<ProviderCall>)
    requires Paired(s, s', t, d, lost) && Undisturbed(cfg, s, steps, t, d)
    ensures var n, n' := Exec(cfg, s, steps), Exec(cfg, s', steps);
      && Paired(n, n', t, d, lost)
      && (SameDatabase(s, s') || CommitsIn(cfg, s, steps, t) ==> SameDatabase(n, n'))
      && (!CommitsIn(cfg, s, steps, t) ==>
            && n.tables.deliveries[d] == s.tables.deliveries[d]
            && n'.tables.deliveries[d] == s'.tables.deliveries[d])
      && (s.history == s'.history && NeverRejected(steps, t) ==> n.history == n'.history)
    decreases |steps|
  {
    if steps != [] {
      PairStep(cfg, s, s', steps[0], t, d, lost);
      if SameDatabase(s, s') {
        NextIgnoresRecords(cfg, s, s', steps[0]);
      }
      PairRun(cfg, Next(cfg, s, steps[0]), Next(cfg, s', steps[0]), steps[1..], t, d, lost);
    }
  }

  /**
   * Any number of runs of task t die before their outcome commit, and then anything follows; between all these
   * steps the rest of the system does anything that does not concern the delivery. Compared with the same
   * history without the dying runs, the database ends the same from the first commit on that task t makes
   * afterwards. Before it, the tables are the same exactly if the dying runs left the row as it was. The
   * provider has answered once more for each run that died after its answer, and not otherwise.
   */
  lemma CrashesInvisible(cfg: Config, s: State, t: nat, d: nat, dying: seq<Step>, rest: seq<Step>)
    requires QueuedFor(s, t, d) && DyingRuns(cfg, s, dying, t, d)
    requires IsQueued(Exec(cfg, s, dying), t)
    requires Undisturbed(cfg, Exec(cfg, s, dying), rest, t, d)
    ensures var crashed, spared := Exec(cfg, s, dying + rest), Exec(cfg, s, Others(dying, t) + rest);
      var committed := CommitsIn(cfg, Exec(cfg, s, dying), rest, t);
      var row := s.tables.deliveries[d];
      && (crashed.tables == spared.tables <==> (committed || RowLeft(row, dying, t) == row))
      && (committed || !IsLoaded(crashed, t) ==> crashed.tasks == spared.tasks)
      && (NeverRejected(rest, t) ==> crashed.history == spared.history)
      && multiset(crashed.calls) == multiset(spared.calls) + AnswersLost(dying, t, d)
  {
    var lost := AnswersLost(dying, t, d);
    var s1, s2 := Exec(cfg, s, dying), Exec(cfg, s, Others(dying, t));
    assert s.tasks == s.tasks[t := s.tasks[t].(phase := s.tasks[t].phase)];
    assert s.tables.deliveries[d := s.tables.deliveries[d]] == s.tables.deliveries;
    assert multiset{} + lost == lost;
    DyingRunsShadow(cfg, s, s, dying, t, d, multiset{});
    PairRun(cfg, s1, s2, rest, t, d, lost);
    ExecSplit(cfg, s, dying, rest);
    ExecSplit(cfg, s, Others(dying, t), rest);
    TablesAgreeIff(Exec(cfg, s1, rest), Exec(cfg, s2, rest), t, d, lost);
  }

  lemma TablesAgreeIff(s: State, s': State, t: nat, d: nat, lost: multiset<ProviderCall>)
    requires Alike(s, s', t, d, lost)
    ensures s.tables == s'.tables <==> s.tables.deliveries[d] == s'.tables.deliveries[d]
    ensures s.tasks[t].phase == s'.tasks[t].phase ==> s.tasks == s'.tasks
  {
    assert s'.tables.deliveries[d := s'.tables.deliveries[d]] == s'.tables.deliveries;
    assert s'.tasks[t := s'.tasks[t].(phase := s'.tasks[t].phase)] == s'.tasks;
  }

  /** After the outcome commit a crash does show: the redelivered run calls the provider and is audited again. */
  lemma CrashAfterOutcomeShows(cfg: Config, s: State, t: nat, d: nat, run: RunInput, again: RunInput)
    requires QueuedFor(s, t, d) && JitterInRange(cfg, s.tables.deliveries[d].retryCount, run.jitter)
    requires again.jitter == 0.0
    ensures var first := Exec(cfg, s, AloneSteps(t, Answered, run));
      var second := Exec(cfg, s, AloneSteps(t, Answered, run) + [Crash(t)] + AloneSteps(t, Answered, again));
      && |second.tables.audit| == |first.tables.audit| + 1 == |s.tables.audit| + 2
      && second.calls == s.calls + [ProviderCall(d, run.answer), ProviderCall(d, again.answer)]
  {
    var first, second := AloneSteps(t, Answered, run), AloneSteps(t, Answered, again);
    OneRunAudits(cfg, s, t, d, run);
    var s1 := Exec(cfg, s, first);
    ExecSplit(cfg, s, first, [Crash(t)]);
    ExecOne(cfg, s1, Crash(t));
    var s2 := Next(cfg, s1, Crash(t));
    ExecSplit(cfg, s, first + [Crash(t)], second);
    OneRunAudits(cfg, s2, t, d, again);
  }

  lemma OneRunAudits(cfg: Config, s: State, t: nat, d: nat, run: RunInput)
    requires QueuedFor(s, t, d) && JitterInRange(cfg, s.tables.deliveries[d].retryCount, run.jitter)
    ensures var s' := Exec(cfg, s, AloneSteps(t, Answered, run));
      && |s'.tables.audit| == |s.tables.audit| + 1
      && |s'.tables.deliveries| == |s.tables.deliveries| && s'.tables.deliveries[d].id == d
      && s'.tasks == AtPhase(s, t, Ended)
      && s'.calls == s.calls + [ProviderCall(d, run.answer)]
  {
    AnsweredAlone(cfg, s, t, d, run);
  }

  // ---- Redispatch ends ----

  /** One rerun of a delivery: refused by the breaker, or answered by the provider. */
  datatype Rerun = Refused(at: real, jitter: real) | Called(answer: Answer, redisUp: bool, at: real, jitter: real)
  {
    /** Redis fails while a transient error is recorded: the run leaves the row SENDING. */
    predicate Drops() {
      Called? && answer.IsTransientError() && !redisUp
    }
  }

  function AfterRerun(cfg: Config, d: Delivery, run: Rerun): Delivery {
    match run
    case Refused(at, jitter) => RefusedByBreaker(d, at, jitter)
    case Called(answer, redisUp, at, jitter) => Settle(cfg, d.MarkedSending(at), answer, redisUp, at, jitter).row
  }

  /** Rerun while PENDING: the final row and the number of reruns made. */
  function Redispatch(cfg: Config, d: Delivery, runs: seq<Rerun>): (end: (Delivery, nat))
    ensures end.1 <= |runs|
    decreases |runs|
  {
    if runs == [] || d.status != PENDING then (d, 0)
    else
      var (last, made) := Redispatch(cfg, AfterRerun(cfg, d, runs[0]), runs[1..]);
      (last, made + 1)
  }

  /** Provider calls that may still end in another retry. */
  function RetriesLeft(cfg: Config, d: Delivery): nat {
    if d.retryCount < cfg.maxAttempts then cfg.maxAttempts - d.retryCount else 0
  }

  function Calls(runs: seq<Rerun>): nat
    decreases |runs|
  {
    if runs == [] then 0 else Calls(runs[1..]) + if runs[0].Called? then 1 else 0
  }

  /**
   * However the environment answers, a PENDING delivery is called at most once more than it has retries
   * left; while it is still PENDING it used only those. It stops SENT or FAILED, or SENDING, which
   * happens exactly when Redis failed while the last answer, a transient error, was recorded.
   */
  lemma {:induction false} RedispatchEnds(cfg: Config, d: Delivery, runs: seq<Rerun>)
    requires d.status == PENDING
    ensures var (last, made) := Redispatch(cfg, d, runs);
      && Calls(runs[..made]) <= RetriesLeft(cfg, d) + 1
      && (last.status == PENDING ==> made == |runs| && Calls(runs) <= RetriesLeft(cfg, d))
      && last.status in {PENDING, SENT, FAILED, SENDING}
      && (last.status == SENDING <==> made > 0 && runs[made - 1].Drops())
      && last.retryCount >= d.retryCount
    decreases |runs|
  {
    if runs != [] {
      var next := AfterRerun(cfg, d, runs[0]);
      var made := Redispatch(cfg, next, runs[1..]).1;
      assert runs[..made + 1][1..] == runs[1..][..made];
      if next.status == PENDING {
        RedispatchEnds(cfg, next, runs[1..]);
        assert made == |runs| - 1 ==> runs[..made + 1] == runs;
      }
    }
  }

  /**
   * A fresh delivery reaches the provider at most max_attempts + 1 times. With Redis up whenever a
   * transient error is recorded, that many answers leave it SENT or FAILED.
   */
  lemma FreshDeliveryEnds(cfg: Config, d: Delivery, runs: seq<Rerun>)
    requires d.status == PENDING && d.retryCount == 0 && cfg.maxAttempts >= 0
    ensures var (last, made) := Redispatch(cfg, d, runs);
      && Calls(runs[..made]) <= cfg.maxAttempts + 1
      && (Calls(runs) >= cfg.maxAttempts + 1 && (forall k :: 0 <= k < |runs| ==> !runs[k].Drops()) ==>
            last.status in {SENT, FAILED})
  {
    RedispatchEnds(cfg, d, runs);
  }
}
