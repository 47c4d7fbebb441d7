/** How often a delivery reaches the provider, and when one that was sent is sent again. */
module Resending {
  import opened Core
  import opened Breaker
  import opened Store
  import opened Worker
  import opened Dlq
  import opened System
  import opened Crashes
  import opened Ledgers
  import opened Admission

  // ---- Every answered call is accounted for ----

  function CallsFor(d: nat): ProviderCall -> bool {
    (c: ProviderCall) => c.delivery == d
  }

  /** A worker has the provider's answer for delivery d and has not committed it. */
  function HoldsAnswerOf(d: nat): Task -> bool {
    (task: Task) => task.phase.Replied? && task.phase.row.id == d
  }

  /** The worker that holds an answer for delivery d crashes. */
  predicate LosesAnswer(s: State, step: Step, d: nat) {
    step.Crash? && step.t < |s.tasks| && HoldsAnswerOf(d)(s.tasks[step.t])
  }

  function LostAnswers(cfg: Config, s: State, steps: seq<Step>, d: nat): nat
    decreases |steps|
  {
    if steps == [] then 0
    else (if LosesAnswer(s, steps[0], d) then 1 else 0) + LostAnswers(cfg, Next(cfg, s, steps[0]), steps[1..], d)
  }

  ghost predicate CallsBalance(s: State, d: nat, lost: nat) {
    Count(s.calls, CallsFor(d)) == Count(s.history, AttemptsFor(d)) + lost + Count(s.tasks, HoldsAnswerOf(d))
  }

  function One(b: bool): nat {
    if b then 1 else 0
  }

  /** A worker's step moves both sides of the balance of d alike. */
  ghost predicate Balances(s: State, t: nat, e: Effect, d: nat, lost: bool) {
    && t < |s.tasks|
    && One(e.call.Some? && CallsFor(d)(e.call.value)) + One(HoldsAnswerOf(d)(s.tasks[t]))
       == One(e.record.Some? && AttemptsFor(d)(e.record.value)) + One(lost)
        + One(HoldsAnswerOf(d)(s.tasks[t].(phase := e.phase)))
  }

  lemma WorkerEffectBalances(cfg: Config, s: State, step: Step, d: nat)
    requires Enabled(cfg, s, step) && !IsPublishing(step)
    ensures Balances(s, step.t, WorkerEffect(cfg, s, step), d, LosesAnswer(s, step, d))
  {
  }

  lemma PerformKeepsCallsBalance(s: State, t: nat, e: Effect, d: nat, before: nat, lost: bool)
    requires CallsBalance(s, d, before) && Balances(s, t, e, d, lost)
    ensures CallsBalance(Perform(s, t, e), d, before + One(lost))
  {
    CountUpdate(s.tasks, t, s.tasks[t].(phase := e.phase), HoldsAnswerOf(d));
    if e.call.Some? {
      CountAppend(s.calls, e.call.value, CallsFor(d));
    }
    if e.record.Some? {
      CountAppend(s.history, e.record.value, AttemptsFor(d));
    }
  }

  lemma {:induction false} QueuedTasksHoldNothing(tasks: seq<Task>, more: seq<Task>, d: nat)
    requires forall k :: 0 <= k < |more| ==> more[k].phase.Queued?
    ensures Count(tasks + more, HoldsAnswerOf(d)) == Count(tasks, HoldsAnswerOf(d))
  {
    if more == [] {
      assert tasks + more == tasks;
    } else {
      var n := |more| - 1;
      QueuedTasksHoldNothing(tasks, more[..n], d);
      assert tasks + more == (tasks + more[..n]) + [more[n]];
      CountAppend(tasks + more[..n], more[n], HoldsAnswerOf(d));
    }
  }

  lemma StepKeepsCallsBalance(cfg: Config, s: State, step: Step, d: nat, before: nat)
    requires CallsBalance(s, d, before)
    ensures CallsBalance(Next(cfg, s, step), d, before + One(Enabled(cfg, s, step) && LosesAnswer(s, step, d)))
  {
    if Enabled(cfg, s, step) {
      if IsPublishing(step) {
        var s' := Next(cfg, s, step);
        QueuedTasksHoldNothing(s.tasks, s'.tasks[|s.tasks|..], d);
        assert s.tasks + s'.tasks[|s.tasks|..] == s'.tasks;
      } else {
        WorkerEffectBalances(cfg, s, step, d);
        PerformKeepsCallsBalance(s, step.t, WorkerEffect(cfg, s, step), d, before, LosesAnswer(s, step, d));
      }
    }
  }

  lemma {:induction false} RunKeepsCallsBalance(cfg: Config, s: State, steps: seq<Step>, d: nat, before: nat)
    requires CallsBalance(s, d, before)
    ensures CallsBalance(Exec(cfg, s, steps), d, before + LostAnswers(cfg, s, steps, d))
    decreases |steps|
  {
    if steps != [] {
      StepKeepsCallsBalance(cfg, s, steps[0], d, before);
      var lost := One(LosesAnswer(s, steps[0], d));
      RunKeepsCallsBalance(cfg, Next(cfg, s, steps[0]), steps[1..], d, before + lost);
    }
  }

  /**
   * Call ledger, for every delivery and every run: the provider's answers are the audit events, the answers
   * that workers still hold, and one for each worker that crashed with an answer. These last are the
   * calls the redelivered run repeats and nothing but the provider remembers.
   */
  lemma CallLedger(cfg: Config, accounts: map<nat, Account>, steps: seq<Step>, d: nat)
    ensures var s := Exec(cfg, Initial(accounts), steps);
      Count(s.calls, CallsFor(d))
      == Count(s.tables.audit, EventsFor(d)) + Count(s.tasks, HoldsAnswerOf(d))
       + LostAnswers(cfg, Initial(accounts), steps, d)
  {
    RunKeepsCallsBalance(cfg, Initial(accounts), steps, d, 0);
    AttemptLedger(cfg, accounts, steps, d);
  }

  // ---- A delivery at rest ----

  /** Delivery d is SENT, and every message for it has been dealt with and acknowledged. */
  ghost predicate AtRest(s: State, d: nat) {
    && d < |s.tables.deliveries|
    && s.tables.deliveries[d].status == SENT
    && forall t :: 0 <= t < |s.tasks| && s.tasks[t].message.delivery == Some(d) ==> s.tasks[t].phase.Acked?
  }

  /** The sweep publishes entry i. */
  predicate Sweepable(dlq: seq<DlqEntry>, broken: set<nat>, i: nat) {
    i < |dlq| && IsDue(dlq[i]) && i !in broken
  }

  /** A replay of a dead letter of delivery d: an accepted manual one, or a sweep that gets it published. */
  ghost predicate Replays(s: State, step: Step, d: nat) {
    var dlq := s.tables.dlq;
    match step
    case ManualReplay(entry, req, _) =>
      && ReplyTo(dlq, entry, req) == Replayed
      && dlq[entry].taskName == SEND_DOCUMENT && dlq[entry].delivery == Some(d)
    case AutoReplay(broken, _) =>
      exists i: nat :: Sweepable(dlq, broken, i) && dlq[i].delivery == Some(d)
    case _ => false
  }

  ghost predicate Names(messages: seq<Message>, d: nat) {
    exists k :: 0 <= k < |messages| && messages[k].delivery == Some(d)
  }

  lemma {:induction false} MessagesName(entries: seq<DlqEntry>, ids: seq<nat>, d: nat)
    requires forall k :: 0 <= k < |ids| ==> ids[k] < |entries|
    ensures Names(Messages(entries, ids), d) <==> exists i: nat :: i in ids && entries[i].delivery == Some(d)
  {
    if ids != [] {
      var n := |ids| - 1;
      var earlier, last := Messages(entries, ids[..n]), SweepMessage(entries[ids[n]]);
      MessagesName(entries, ids[..n], d);
      assert ids == ids[..n] + [ids[n]] && Messages(entries, ids) == earlier + [last];
      assert (earlier + [last])[|earlier|] == last;
      if Names(earlier, d) {
        var k :| 0 <= k < |earlier| && earlier[k].delivery == Some(d);
        assert (earlier + [last])[k].delivery == Some(d);
      }
    }
  }

  lemma SweptIds(dlq: seq<DlqEntry>, broken: set<nat>)
    ensures forall i: nat :: i in Filter(Due(dlq), broken) <==> Sweepable(dlq, broken, i)
  {
    forall i: nat
      ensures i in Filter(Due(dlq), broken) <==> Sweepable(dlq, broken, i)
    {
      FilterMember(Due(dlq), broken, i);
    }
  }

  lemma SweepNames(s: State, broken: set<nat>, now: real, d: nat)
    ensures Names(Sweep(Desk(s.tables.dlq, []), broken, now).queue, d) <==> Replays(s, AutoReplay(broken, now), d)
  {
    var dlq := s.tables.dlq;
    var ids := Filter(Due(dlq), broken);
    SweepOverTraffic(Desk(dlq, []), Due(dlq), broken, now);
    assert [] + Messages(dlq, ids) == Messages(dlq, ids);
    SweptIds(dlq, broken);
    assert forall k :: 0 <= k < |ids| ==> ids[k] in ids && Sweepable(dlq, broken, ids[k]);
    MessagesName(dlq, ids, d);
  }

  lemma ReplayNames(s: State, entry: nat, req: Request, now: real, d: nat)
    ensures Names(ReplayOne(Desk(s.tables.dlq, []), entry, req, now).queue, d)
       <==> Replays(s, ManualReplay(entry, req, now), d)
  {
    if ReplyTo(s.tables.dlq, entry, req) == Replayed {
      var messages := ReplayMessages(s.tables.dlq[entry]);
      assert [] + messages == messages;
      assert messages != [] ==> messages[0].delivery == s.tables.dlq[entry].delivery;
    }
  }

  /** Only a replay publishes a message for a delivery that is SENT, and no publishing step changes its row. */
  lemma PublishingNames(cfg: Config, s: State, step: Step, d: nat)
    requires IsPublishing(step) && Enabled(cfg, s, step)
    requires d < |s.tables.deliveries| && s.tables.deliveries[d].status == SENT
    ensures Names(Published(s, step).1, d) <==> Replays(s, step, d)
    ensures d < |Published(s, step).0.deliveries| && Published(s, step).0.deliveries[d] == s.tables.deliveries[d]
  {
    match step {
      case ManualReplay(entry, req, now) => ReplayNames(s, entry, req, now, d);
      case AutoReplay(broken, now) => SweepNames(s, broken, now, d);
      case _ =>
    }
  }

  lemma PublishKeepsRestIff(s: State, tables: Tables, messages: seq<Message>, d: nat)
    requires AtRest(s, d) && d < |tables.deliveries| && tables.deliveries[d] == s.tables.deliveries[d]
    ensures AtRest(Publish(s, messages).(tables := tables), d) <==> !Names(messages, d)
  {
    var s' := Publish(s, messages).(tables := tables);
    if Names(messages, d) {
      var k :| 0 <= k < |messages| && messages[k].delivery == Some(d);
      assert s'.tasks[|s.tasks| + k].message.delivery == Some(d);
    }
  }

  /** The worker's task is not one of delivery d's, which are all acknowledged. */
  lemma PerformKeepsRest(cfg: Config, s: State, t: nat, e: Effect, d: nat)
    requires WellFormed(s) && AtRest(s, d) && Sound(cfg, s, t, e) && !s.tasks[t].phase.Acked?
    requires e.call.Some? ==> s.tasks[t].phase.Active() && e.call.value.delivery == s.tasks[t].phase.row.id
    ensures var s' := Perform(s, t, e);
      && AtRest(s', d)
      && s'.tables.deliveries[d] == s.tables.deliveries[d]
      && Count(s'.calls, CallsFor(d)) == Count(s.calls, CallsFor(d))
      && Count(s'.history, AttemptsFor(d)) == Count(s.history, AttemptsFor(d))
  {
    assert s.tasks[t].message.delivery != Some(d);
    if e.call.Some? {
      CountAppend(s.calls, e.call.value, CallsFor(d));
    }
    if e.record.Some? {
      CountAppend(s.history, e.record.value, AttemptsFor(d));
    }
  }

  lemma WorkerStepsMove(cfg: Config, s: State, step: Step)
    requires Enabled(cfg, s, step) && !IsPublishing(step)
    ensures !s.tasks[step.t].phase.Acked?
    ensures var e := WorkerEffect(cfg, s, step);
      e.call.Some? ==> s.tasks[step.t].phase.Active() && e.call.value.delivery == s.tasks[step.t].phase.row.id
  {
  }

  /**
   * Whatever happens to a delivery at rest, its row stays, and no call or outcome is added for it; and it
   * stays at rest unless the step replays one of its dead letters.
   */
  lemma StepKeepsRestIff(cfg: Config, s: State, step: Step, d: nat)
    requires WellFormed(s) && AtRest(s, d)
    ensures var s' := Next(cfg, s, step);
      && d < |s'.tables.deliveries| && s'.tables.deliveries[d] == s.tables.deliveries[d]
      && Count(s'.calls, CallsFor(d)) == Count(s.calls, CallsFor(d))
      && Count(s'.history, AttemptsFor(d)) == Count(s.history, AttemptsFor(d))
    ensures AtRest(Next(cfg, s, step), d) <==> !Replays(s, step, d)
  {
    if Enabled(cfg, s, step) {
      if IsPublishing(step) {
        PublishingNames(cfg, s, step, d);
        PublishKeepsRestIff(s, Published(s, step).0, Published(s, step).1, d);
      } else {
        WorkerEffectSound(cfg, s, step);
        WorkerStepsMove(cfg, s, step);
        PerformKeepsRest(cfg, s, step.t, WorkerEffect(cfg, s, step), d);
      }
    }
  }

  // ---- Over whole runs ----

  /** No step of the run replays a dead letter of delivery d. */
  ghost predicate NeverReplayed(cfg: Config, s: State, steps: seq<Step>, d: nat) {
    forall k :: 0 <= k < |steps| ==> !Replays(Exec(cfg, s, steps[..k]), steps[k], d)
  }

  ghost predicate RestsThroughout(cfg: Config, s: State, steps: seq<Step>, d: nat) {
    forall k :: 0 <= k <= |steps| ==> AtRest(Exec(cfg, s, steps[..k]), d)
  }

  /** Up to step k nothing has happened to delivery d. */
  ghost predicate Untouched(cfg: Config, s: State, steps: seq<Step>, d: nat, k: nat)
    requires k <= |steps| && d < |s.tables.deliveries|
  {
    var s' := Exec(cfg, s, steps[..k]);
    && WellFormed(s') && AtRest(s', d)
    && s'.tables.deliveries[d] == s.tables.deliveries[d]
    && Count(s'.calls, CallsFor(d)) == Count(s.calls, CallsFor(d))
    && Count(s'.history, AttemptsFor(d)) == Count(s.history, AttemptsFor(d))
  }

  lemma {:induction false} UntouchedUpTo(cfg: Config, s: State, steps: seq<Step>, d: nat, k: nat)
    requires WellFormed(s) && AtRest(s, d) && k <= |steps|
    requires NeverReplayed(cfg, s, steps, d)
    ensures Untouched(cfg, s, steps, d, k)
  {
    if k == 0 {
      assert steps[..0] == [];
    } else {
      var s' := Exec(cfg, s, steps[..k - 1]);
      UntouchedUpTo(cfg, s, steps, d, k - 1);
      ExecSnoc(cfg, s, steps, k - 1);
      assert !Replays(s', steps[k - 1], d);
      StepKeepsWellFormed(cfg, s', steps[k - 1]);
      StepKeepsRestIff(cfg, s', steps[k - 1], d);
    }
  }

  lemma RestMeansNoReplay(cfg: Config, s: State, steps: seq<Step>, d: nat, k: nat)
    requires WellFormed(s) && RestsThroughout(cfg, s, steps, d) && k < |steps|
    ensures !Replays(Exec(cfg, s, steps[..k]), steps[k], d)
  {
    var s' := Exec(cfg, s, steps[..k]);
    RunKeepsWellFormed(cfg, s, steps[..k]);
    ExecSnoc(cfg, s, steps, k);
    assert AtRest(s', d) && AtRest(Exec(cfg, s, steps[..k + 1]), d);
    StepKeepsRestIff(cfg, s', steps[k], d);
  }

  lemma RestsThroughoutIff(cfg: Config, s: State, steps: seq<Step>, d: nat)
    requires WellFormed(s) && AtRest(s, d)
    ensures RestsThroughout(cfg, s, steps, d) <==> NeverReplayed(cfg, s, steps, d)
  {
    if NeverReplayed(cfg, s, steps, d) {
      forall k | 0 <= k <= |steps|
        ensures AtRest(Exec(cfg, s, steps[..k]), d)
      {
        UntouchedUpTo(cfg, s, steps, d, k);
      }
    } else if RestsThroughout(cfg, s, steps, d) {
      forall k | 0 <= k < |steps|
        ensures !Replays(Exec(cfg, s, steps[..k]), steps[k], d)
      {
        RestMeansNoReplay(cfg, s, steps, d, k);
      }
    }
  }

  /**
   * Sent and acknowledged, a delivery stays so through a run exactly if the run replays none of its dead
   * letters, whatever else the run does: crashes, exceptions, repeated submissions, forced retries. Its
   * row is then the same to the end, and the provider is not called for it again.
   */
  lemma SentOnceIff(cfg: Config, accounts: map<nat, Account>, first: seq<Step>, rest: seq<Step>, d: nat)
    requires AtRest(Exec(cfg, Initial(accounts), first), d)
    ensures var s, end := Exec(cfg, Initial(accounts), first), Exec(cfg, Initial(accounts), first + rest);
      && (RestsThroughout(cfg, s, rest, d) <==> NeverReplayed(cfg, s, rest, d))
      && (NeverReplayed(cfg, s, rest, d) ==>
            && d < |end.tables.deliveries|
            && end.tables.deliveries[d] == s.tables.deliveries[d]
            && Count(end.calls, CallsFor(d)) == Count(s.calls, CallsFor(d)))
  {
    var s := Exec(cfg, Initial(accounts), first);
    RunKeepsWellFormed(cfg, Initial(accounts), first);
    RestsThroughoutIff(cfg, s, rest, d);
    ExecSplit(cfg, Initial(accounts), first, rest);
    assert rest[..|rest|] == rest;
    if NeverReplayed(cfg, s, rest, d) {
      UntouchedUpTo(cfg, s, rest, d, |rest|);
    }
  }

  /**
   * A replay does lead to another call: the worker that takes its message never looks at the status, and gets
   * to the provider whenever the account is active and its breaker admits the task.
   */
  lemma ReplayCallsAgain(cfg: Config, w: World, step: Step, d: nat, now: real, answer: Answer)
    requires WellFormed(w.state) && AtRest(w.state, d) && Replays(w.state, step, d)
    ensures exists t: nat ::
      var w', steps := Advance(cfg, w, step), [Load(t), BeginSending(t, now)];
      var account := w.state.tables.deliveries[d].account;
      && Play(cfg, w', steps + [AnswerCall(t, answer)]).state.calls == w.state.calls + [ProviderCall(d, answer)]
      && (Playable(cfg, w', steps + [AnswerCall(t, answer)]) <==>
            && ActiveAccount(w.state.tables, account)
            && NotBefore(w.Past(account), now) && !Rejects(cfg, w.Past(account), now))
  {
    PublishingNames(cfg, w.state, step, d);
    var messages := Published(w.state, step).1;
    var k :| 0 <= k < |messages| && messages[k].delivery == Some(d);
    var w', t := Advance(cfg, w, step), |w.state.tasks| + k;
    StepKeepsWellFormed(cfg, w.state, step);
    assert w'.state.tasks[t] == Task(messages[k], Queued) && QueuedFor(w'.state, t, d);
    CallPlays(cfg, w', t, d, now, answer);
  }

  lemma CallPlays(cfg: Config, w: World, t: nat, d: nat, now: real, answer: Answer)
    requires QueuedFor(w.state, t, d)
    ensures var steps, account := [Load(t), BeginSending(t, now)], w.state.tables.deliveries[d].account;
      && Play(cfg, w, steps + [AnswerCall(t, answer)]).state.calls == w.state.calls + [ProviderCall(d, answer)]
      && (Playable(cfg, w, steps + [AnswerCall(t, answer)]) <==>
            && ActiveAccount(w.state.tables, account)
            && NotBefore(w.Past(account), now) && !Rejects(cfg, w.Past(account), now))
  {
    ReachLoaded(cfg, w.state, t, d);
    ReachSending(cfg, w.state, t, d, now);
    ReachReplied(cfg, w.state, t, d, now, answer);
    PlayTwo(cfg, w, Load(t), BeginSending(t, now));
    PlaySplit(cfg, w, [Load(t), BeginSending(t, now)], [AnswerCall(t, answer)]);
    PlayOne(cfg, Play(cfg, w, [Load(t), BeginSending(t, now)]), AnswerCall(t, answer));
  }
}
