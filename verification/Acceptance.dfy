/** What the stored row knows about the provider's acceptances, and when a call repeats a send already accepted. */
module Acceptance {
  import opened Core
  import opened Store
  import opened System
  import opened Ledgers

  function AcceptancesFor(d: nat): ProviderCall -> bool {
    (c: ProviderCall) => c.delivery == d && c.answer.Accepted?
  }

  ghost predicate EverAccepted(s: State, d: nat) {
    Count(s.calls, AcceptancesFor(d)) > 0
  }

  predicate StoresId(s: State, d: nat) {
    d < |s.tables.deliveries| && s.tables.deliveries[d].providerDocumentId.Some?
  }

  predicate HoldsAcceptance(task: Task, d: nat) {
    task.phase.Replied? && task.phase.row.id == d && task.phase.answer.Accepted?
  }

  /** Some worker has an acceptance of delivery d and has not committed it. */
  ghost predicate AcceptanceHeld(s: State, d: nat) {
    exists t :: 0 <= t < |s.tasks| && HoldsAcceptance(s.tasks[t], d)
  }

  /** A worker crashes with an acceptance of delivery d. */
  predicate LosesAcceptance(s: State, step: Step, d: nat) {
    step.Crash? && step.t < |s.tasks| && HoldsAcceptance(s.tasks[step.t], d)
  }

  /** A worker commits a copy of row d without a provider id over a row that has one. */
  predicate ErasesId(cfg: Config, s: State, step: Step, d: nat) {
    && Enabled(cfg, s, step)
    && (step.FailInactive? || step.RejectOpen? || step.BeginSending? || step.Finish?)
    && StoresId(s, d)
    && var phase := s.tasks[step.t].phase;
       && phase.row.id == d && phase.row.providerDocumentId.None?
       && !(step.Finish? && phase.answer.Accepted?)
  }

  /** The two ways an acceptance leaves no trace in the system. */
  predicate Forgets(cfg: Config, s: State, step: Step, d: nat) {
    LosesAcceptance(s, step, d) || ErasesId(cfg, s, step, d)
  }

  predicate ForgetsIn(cfg: Config, s: State, steps: seq<Step>, d: nat)
    decreases |steps|
  {
    steps != [] && (Forgets(cfg, s, steps[0], d) || ForgetsIn(cfg, Next(cfg, s, steps[0]), steps[1..], d))
  }

  // ---- An acceptance is stored, held or forgotten ----

  predicate CopyHasId(task: Task, d: nat) {
    task.phase.Active() && task.phase.row.id == d && task.phase.row.providerDocumentId.Some?
  }

  ghost predicate Accounted(s: State, d: nat, forgotten: bool) {
    && (EverAccepted(s, d) <==> StoresId(s, d) || AcceptanceHeld(s, d) || forgotten)
    && forall t :: 0 <= t < |s.tasks| && CopyHasId(s.tasks[t], d) ==> EverAccepted(s, d)
  }

  /** What a worker's step does with provider ids and answers. */
  ghost predicate Carries(s: State, t: nat, e: Effect) {
    && t < |s.tasks|
    && var phase := s.tasks[t].phase;
       && (e.row.Some? ==>
             && phase.Active()
             && if e.record.Some? && e.record.value.Attempt? && phase.Replied? && phase.answer.Accepted?
                then e.row.value.providerDocumentId.Some?
                else e.row.value.providerDocumentId == phase.row.providerDocumentId)
       && (e.call.Some? <==> e.phase.Replied?)
       && (e.call.Some? ==>
             && phase.Calling? && e.row.None?
             && e.call.value == ProviderCall(e.phase.row.id, e.phase.answer))
       && (phase.Replied? && e.row.Some? ==> e.record.Some? && e.record.value.Attempt?)
  }

  predicate EffectForgets(s: State, t: nat, e: Effect, d: nat)
    requires t < |s.tasks|
  {
    || (HoldsAcceptance(s.tasks[t], d) && e.row.None?)
    || (e.row.Some? && e.row.value.id == d && e.row.value.providerDocumentId.None? && StoresId(s, d))
  }

  lemma WorkerEffectCarries(cfg: Config, s: State, step: Step)
    requires Enabled(cfg, s, step) && !IsPublishing(step)
    ensures Carries(s, step.t, WorkerEffect(cfg, s, step))
  {
  }

  lemma EffectForgetsIff(cfg: Config, s: State, step: Step, d: nat)
    requires Enabled(cfg, s, step) && !IsPublishing(step)
    ensures EffectForgets(s, step.t, WorkerEffect(cfg, s, step), d) <==> Forgets(cfg, s, step, d)
  {
  }

  lemma PerformKeepsAccounted(cfg: Config, s: State, t: nat, e: Effect, d: nat, forgotten: bool)
    requires WellFormed(s) && Accounted(s, d, forgotten) && Sound(cfg, s, t, e) && Carries(s, t, e)
    ensures Accounted(Perform(s, t, e), d, forgotten || EffectForgets(s, t, e, d))
  {
    var s' := Perform(s, t, e);
    if e.call.Some? {
      CountAppend(s.calls, e.call.value, AcceptancesFor(d));
    }
    assert forall u :: 0 <= u < |s.tasks| && u != t ==> s'.tasks[u] == s.tasks[u];
    if AcceptanceHeld(s, d) {
      var u :| 0 <= u < |s.tasks| && HoldsAcceptance(s.tasks[u], d);
      assert u != t ==> HoldsAcceptance(s'.tasks[u], d);
    }
    if AcceptanceHeld(s', d) {
      var u :| 0 <= u < |s'.tasks| && HoldsAcceptance(s'.tasks[u], d);
      assert u != t ==> HoldsAcceptance(s.tasks[u], d);
    }
    assert HoldsAcceptance(s'.tasks[t], d) ==> AcceptanceHeld(s', d);
  }

  lemma NewRowsHaveNoId(s: State, step: Step)
    requires IsPublishing(step)
    ensures var rows := Published(s, step).0.deliveries;
      forall i :: |s.tables.deliveries| <= i < |rows| ==> rows[i].providerDocumentId.None?
  {
  }

  lemma PublishKeepsAccounted(s: State, tables: Tables, messages: seq<Message>, d: nat, forgotten: bool)
    requires Accounted(s, d, forgotten) && Grown(s.tables.deliveries, tables.deliveries)
    requires forall i :: |s.tables.deliveries| <= i < |tables.deliveries| ==>
      tables.deliveries[i].providerDocumentId.None?
    ensures Accounted(Publish(s, messages).(tables := tables), d, forgotten)
  {
    var s' := Publish(s, messages).(tables := tables);
    assert forall u :: 0 <= u < |s.tasks| ==> s'.tasks[u] == s.tasks[u];
    if AcceptanceHeld(s, d) {
      var u :| 0 <= u < |s.tasks| && HoldsAcceptance(s.tasks[u], d);
      assert HoldsAcceptance(s'.tasks[u], d);
    }
  }

  lemma StepKeepsAccounted(cfg: Config, s: State, step: Step, d: nat, forgotten: bool)
    requires WellFormed(s) && Accounted(s, d, forgotten)
    ensures Accounted(Next(cfg, s, step), d, forgotten || Forgets(cfg, s, step, d))
  {
    if Enabled(cfg, s, step) {
      if IsPublishing(step) {
        PublishedGrows(s, step);
        NewRowsHaveNoId(s, step);
        PublishKeepsAccounted(s, Published(s, step).0, Published(s, step).1, d, forgotten);
      } else {
        WorkerEffectSound(cfg, s, step);
        WorkerEffectCarries(cfg, s, step);
        EffectForgetsIff(cfg, s, step, d);
        PerformKeepsAccounted(cfg, s, step.t, WorkerEffect(cfg, s, step), d, forgotten);
      }
    }
  }

  lemma {:induction false} RunKeepsAccounted(cfg: Config, s: State, steps: seq<Step>, d: nat, forgotten: bool)
    requires WellFormed(s) && Accounted(s, d, forgotten)
    ensures Accounted(Exec(cfg, s, steps), d, forgotten || ForgetsIn(cfg, s, steps, d))
    decreases |steps|
  {
    if steps != [] {
      var now := Forgets(cfg, s, steps[0], d);
      StepKeepsWellFormed(cfg, s, steps[0]);
      StepKeepsAccounted(cfg, s, steps[0], d, forgotten);
      RunKeepsAccounted(cfg, Next(cfg, s, steps[0]), steps[1..], d, forgotten || now);
    }
  }

  /**
   * For every delivery and every run, workers overlapping or not: the provider has accepted the document
   * exactly if the stored row has a provider id, or a worker still holds the acceptance, or the run forgot
   * one, by a crash of the worker that held it or by a commit of a copy loaded before it was stored.
   */
  lemma AcceptedIff(cfg: Config, accounts: map<nat, Account>, steps: seq<Step>, d: nat)
    ensures var s := Exec(cfg, Initial(accounts), steps);
      EverAccepted(s, d) <==>
      StoresId(s, d) || AcceptanceHeld(s, d) || ForgetsIn(cfg, Initial(accounts), steps, d)
  {
    RunKeepsAccounted(cfg, Initial(accounts), steps, d, false);
  }

  // ---- With one worker at a time per delivery ----

  /** Every worker's copy has the stored provider id. */
  ghost predicate IdsAgree(s: State) {
    forall t :: 0 <= t < |s.tasks| && s.tasks[t].phase.Active() ==>
      var row := s.tasks[t].phase.row;
      row.id < |s.tables.deliveries| && row.providerDocumentId == s.tables.deliveries[row.id].providerDocumentId
  }

  lemma PerformKeepsIds(cfg: Config, s: State, t: nat, e: Effect)
    requires WellFormed(s) && Serial(s) && IdsAgree(s) && Sound(cfg, s, t, e)
    ensures IdsAgree(Perform(s, t, e))
  {
  }

  lemma PublishKeepsIds(s: State, tables: Tables, messages: seq<Message>)
    requires IdsAgree(s) && Grown(s.tables.deliveries, tables.deliveries)
    ensures IdsAgree(Publish(s, messages).(tables := tables))
  {
  }

  lemma NothingErased(cfg: Config, s: State, step: Step, d: nat)
    requires IdsAgree(s)
    ensures Forgets(cfg, s, step, d) <==> LosesAcceptance(s, step, d)
  {
  }

  lemma StepKeepsIds(cfg: Config, s: State, step: Step)
    requires WellFormed(s) && Serial(s) && IdsAgree(s)
    ensures IdsAgree(Next(cfg, s, step))
  {
    if Enabled(cfg, s, step) {
      if IsPublishing(step) {
        PublishedGrows(s, step);
        PublishKeepsIds(s, Published(s, step).0, Published(s, step).1);
      } else {
        WorkerEffectSound(cfg, s, step);
        PerformKeepsIds(cfg, s, step.t, WorkerEffect(cfg, s, step));
      }
    }
  }

  predicate LosesAcceptanceIn(cfg: Config, s: State, steps: seq<Step>, d: nat)
    decreases |steps|
  {
    steps != [] && (LosesAcceptance(s, steps[0], d) || LosesAcceptanceIn(cfg, Next(cfg, s, steps[0]), steps[1..], d))
  }

  lemma {:induction false} SerialRunForgetsByCrash(cfg: Config, s: State, steps: seq<Step>, d: nat)
    requires WellFormed(s) && IdsAgree(s) && SerialRun(cfg, s, steps)
    ensures ForgetsIn(cfg, s, steps, d) <==> LosesAcceptanceIn(cfg, s, steps, d)
    ensures IdsAgree(Exec(cfg, s, steps)) && Serial(Exec(cfg, s, steps))
    decreases |steps|
  {
    if steps != [] {
      StepKeepsWellFormed(cfg, s, steps[0]);
      StepKeepsIds(cfg, s, steps[0]);
      NothingErased(cfg, s, steps[0], d);
      SerialRunForgetsByCrash(cfg, Next(cfg, s, steps[0]), steps[1..], d);
    }
  }

  /**
   * The guard the task lacks. With one worker at a time per delivery, a worker about to call the provider
   * repeats a send the provider has accepted exactly if the row it holds already has a provider id, or a
   * worker crashed with the acceptance before it was stored.
   */
  lemma CallRepeatsIff(cfg: Config, accounts: map<nat, Account>, steps: seq<Step>, t: nat)
    requires SerialRun(cfg, Initial(accounts), steps)
    requires IsCalling(Exec(cfg, Initial(accounts), steps), t)
    ensures var s := Exec(cfg, Initial(accounts), steps);
      var row := s.tasks[t].phase.row;
      EverAccepted(s, row.id) <==>
      row.providerDocumentId.Some? || LosesAcceptanceIn(cfg, Initial(accounts), steps, row.id)
  {
    var s := Exec(cfg, Initial(accounts), steps);
    var d := s.tasks[t].phase.row.id;
    AcceptedIff(cfg, accounts, steps, d);
    SerialRunForgetsByCrash(cfg, Initial(accounts), steps, d);
    if AcceptanceHeld(s, d) {
      var u :| 0 <= u < |s.tasks| && HoldsAcceptance(s.tasks[u], d);
      assert u == t;
    }
  }

  // ---- Over whole runs ----

  /** An answered call for delivery d after the provider has accepted it. */
  ghost predicate Repeats(s: State, step: Step, d: nat) {
    step.AnswerCall? && IsCalling(s, step.t) && s.tasks[step.t].phase.row.id == d && EverAccepted(s, d)
  }

  /** An answered call for delivery d that the row held, or a crash so far, gives away as a repetition. */
  ghost predicate Telltale(cfg: Config, accounts: map<nat, Account>, past: seq<Step>, step: Step, d: nat) {
    var s := Exec(cfg, Initial(accounts), past);
    && step.AnswerCall? && IsCalling(s, step.t) && s.tasks[step.t].phase.row.id == d
    && (s.tasks[step.t].phase.row.providerDocumentId.Some? || LosesAcceptanceIn(cfg, Initial(accounts), past, d))
  }

  lemma {:induction false} SerialUpTo(cfg: Config, s: State, steps: seq<Step>, k: nat)
    requires SerialRun(cfg, s, steps) && k <= |steps|
    ensures SerialRun(cfg, s, steps[..k])
    decreases |steps|
  {
    if k > 0 {
      SerialUpTo(cfg, Next(cfg, s, steps[0]), steps[1..], k - 1);
      assert steps[..k][0] == steps[0] && steps[..k][1..] == steps[1..][..k - 1];
    }
  }

  /** A serial run never sends an accepted document again exactly if no call of it has that mark. */
  lemma NeverSentTwiceIff(cfg: Config, accounts: map<nat, Account>, steps: seq<Step>, d: nat)
    requires SerialRun(cfg, Initial(accounts), steps)
    ensures (forall k :: 0 <= k < |steps| ==> !Repeats(Exec(cfg, Initial(accounts), steps[..k]), steps[k], d))
       <==> (forall k :: 0 <= k < |steps| ==> !Telltale(cfg, accounts, steps[..k], steps[k], d))
  {
    forall k | 0 <= k < |steps|
      ensures Repeats(Exec(cfg, Initial(accounts), steps[..k]), steps[k], d)
         <==> Telltale(cfg, accounts, steps[..k], steps[k], d)
    {
      SerialUpTo(cfg, Initial(accounts), steps, k);
      if steps[k].AnswerCall? && IsCalling(Exec(cfg, Initial(accounts), steps[..k]), steps[k].t) {
        CallRepeatsIff(cfg, accounts, steps[..k], steps[k].t);
      }
    }
  }
}
