/** No delivery is left waiting for a task that no longer exists, and exactly when that can happen. */
module Stranding {
  import opened Core
  import opened Deliveries
  import opened Store
  import opened Documents
  import opened Breaker
  import opened Worker
  import opened Crashes
  import opened System
  import opened Admission
  import opened Solo

  /** Nothing but a task can move this row on: SENDING, or PENDING without a retry time. */
  predicate NeedsTask(row: Delivery) {
    row.status == SENDING || (row.status == PENDING && row.nextRetryAt.None?)
  }

  predicate LiveFor(s: State, t: nat, d: nat) {
    t < |s.tasks| && s.tasks[t].message.delivery == Some(d) && s.tasks[t].phase.Live()
  }

  /** Some task of delivery d is queued, or held by a worker that has not made its last commit. */
  ghost predicate HasLive(s: State, d: nat) {
    exists t: nat :: LiveFor(s, t, d)
  }

  ghost predicate NoStranded(s: State) {
    forall d: nat :: d < |s.tables.deliveries| && NeedsTask(s.tables.deliveries[d]) ==> HasLive(s, d)
  }

  ghost predicate OtherLive(s: State, t: nat, d: nat) {
    exists u: nat :: u != t && LiveFor(s, u, d)
  }

  /**
   * The two ways to strand a delivery, both an exception out of the last task of that delivery:
   * the guard or the provider factory raises, or Redis fails while a transient error is recorded.
   */
  ghost predicate Strands(cfg: Config, s: State, step: Step) {
    && Enabled(cfg, s, step)
    && match step
       case Abort(t) =>
         var d := s.tasks[t].phase.row.id;
         d < |s.tables.deliveries| && NeedsTask(s.tables.deliveries[d]) && !OtherLive(s, t, d)
       case Finish(t, redisUp, _, _) =>
         && s.tasks[t].phase.answer.IsTransientError() && !redisUp
         && !OtherLive(s, t, s.tasks[t].phase.row.id)
       case _ => false
  }

  /**
   * Which exceptions matter: a first run of send_document raises exactly when the row it leaves behind,
   * wherever it ended, still needs a task.
   */
  lemma RaisesIff(cfg: Config, t: Tables, past: seq<Event>, d: nat, run: RunInput)
    requires d < |t.deliveries| && t.deliveries[d].id == d
    requires t.deliveries[d].status == PENDING && t.deliveries[d].nextRetryAt == None
    ensures var verdict := VerdictOf(cfg, t, past, d, run);
      var left := LastCommit(cfg, t, d, verdict, run);
      |left.deliveries| == |t.deliveries| && (Raises(verdict, run) <==> NeedsTask(left.deliveries[d]))
  {
  }

  // ---- Publishing steps ----

  lemma StillThere(s: State, tables: Tables, messages: seq<Message>, d: nat)
    requires HasLive(s, d)
    ensures HasLive(Publish(s, messages).(tables := tables), d)
  {
    var t: nat :| LiveFor(s, t, d);
    assert LiveFor(Publish(s, messages).(tables := tables), t, d);
  }

  lemma NewTask(s: State, tables: Tables, messages: seq<Message>, k: nat, d: nat)
    requires k < |messages| && messages[k].delivery == Some(d)
    ensures HasLive(Publish(s, messages).(tables := tables), d)
  {
    assert LiveFor(Publish(s, messages).(tables := tables), |s.tasks| + k, d);
  }

  /** The endpoints and the sweep only add tasks; a row they make needy gets one of its own. */
  lemma PublishingKeeps(s: State, step: Step)
    requires NoStranded(s) && IsPublishing(step)
    ensures var (tables, messages) := Published(s, step);
      NoStranded(Publish(s, messages).(tables := tables))
  {
    var (tables, messages) := Published(s, step);
    forall d: nat | d < |tables.deliveries| && NeedsTask(tables.deliveries[d])
      ensures HasLive(Publish(s, messages).(tables := tables), d)
    {
      if d < |s.tables.deliveries| && NeedsTask(s.tables.deliveries[d]) {
        StillThere(s, tables, messages, d);
      } else if step.Submit? {
        NewTask(s, tables, messages, 0, d);
      } else {
        var ids := FailedOf(s.tables.deliveries, step.document);
        assert d in ids;
        var k :| 0 <= k < |ids| && ids[k] == d;
        NewTask(s, tables, messages, k, d);
      }
    }
  }

  // ---- Worker steps ----

  lemma OtherLiveStays(s: State, t: nat, e: Effect, u: nat, d: nat)
    requires t < |s.tasks| && u != t
    ensures LiveFor(Perform(s, t, e), u, d) <==> LiveFor(s, u, d)
  {
  }

  /** A task that stays live, or was of no delivery's use, leaves every delivery its live task. */
  lemma QuietMoveKeeps(cfg: Config, s: State, t: nat, e: Effect)
    requires WellFormed(s) && NoStranded(s) && Sound(cfg, s, t, e)
    requires e.phase.Live() || (e.row.None? && forall d: nat :: d < |s.tables.deliveries| ==> !LiveFor(s, t, d))
    ensures NoStranded(Perform(s, t, e))
  {
    var s' := Perform(s, t, e);
    forall d: nat | d < |s'.tables.deliveries| && NeedsTask(s'.tables.deliveries[d])
      ensures HasLive(s', d)
    {
      if e.phase.Live() && s.tasks[t].message.delivery == Some(d) {
        assert LiveFor(s', t, d);
      } else {
        assert s'.tables.deliveries[d] == s.tables.deliveries[d];
        var u: nat :| LiveFor(s, u, d);
        OtherLiveStays(s, t, e, u, d);
      }
    }
  }

  /** When a run ends, its delivery is stranded exactly if the row left behind needs a task and has none. */
  lemma EndingKeepsIff(cfg: Config, s: State, t: nat, e: Effect)
    requires WellFormed(s) && NoStranded(s) && Sound(cfg, s, t, e)
    requires s.tasks[t].phase.Active() && e.phase.Ended?
    ensures var own := s.tasks[t].phase.row.id;
      var needy := NeedsTask(Perform(s, t, e).tables.deliveries[own]);
      NoStranded(Perform(s, t, e)) <==> (needy ==> OtherLive(s, t, own))
  {
    var s', own := Perform(s, t, e), s.tasks[t].phase.row.id;
    forall d: nat | d < |s'.tables.deliveries| && d != own && NeedsTask(s'.tables.deliveries[d])
      ensures HasLive(s', d)
    {
      var u: nat :| LiveFor(s, u, d);
      OtherLiveStays(s, t, e, u, d);
    }
    assert HasLive(s', own) ==> OtherLive(s, t, own) by {
      if HasLive(s', own) {
        var u: nat :| LiveFor(s', u, own);
        OtherLiveStays(s, t, e, u, own);
      }
    }
    if OtherLive(s, t, own) {
      var u: nat :| u != t && LiveFor(s, u, own);
      OtherLiveStays(s, t, e, u, own);
    }
  }

  /** The row a run leaves behind needs a task in the two fault cases only. */
  lemma RowLeftBehind(cfg: Config, s: State, step: Step)
    requires WellFormed(s) && Enabled(cfg, s, step)
    requires step.FailInactive? || step.RejectOpen? || step.Finish? || step.Abort?
    ensures var own := s.tasks[step.t].phase.row.id;
      NeedsTask(Perform(s, step.t, WorkerEffect(cfg, s, step)).tables.deliveries[own]) <==>
        || (step.Abort? && NeedsTask(s.tables.deliveries[own]))
        || (step.Finish? && s.tasks[step.t].phase.answer.IsTransientError() && !step.redisUp)
  {
  }

  /** From a state with nobody stranded, a step strands somebody exactly when it is one of those two. */
  lemma StepKeepsNoStrandedIff(cfg: Config, s: State, step: Step)
    requires WellFormed(s) && NoStranded(s)
    ensures NoStranded(Next(cfg, s, step)) <==> !Strands(cfg, s, step)
  {
    if Enabled(cfg, s, step) {
      if IsPublishing(step) {
        PublishingKeeps(s, step);
      } else {
        var e := WorkerEffect(cfg, s, step);
        WorkerEffectSound(cfg, s, step);
        if step.Load? || step.BeginSending? || step.AnswerCall? || step.Crash? || step.Ack? {
          QuietMoveKeeps(cfg, s, step.t, e);
        } else {
          EndingKeepsIff(cfg, s, step.t, e);
          RowLeftBehind(cfg, s, step);
        }
      }
    }
  }

  /** No exception leaves the last task of a delivery. */
  ghost predicate FaultFree(cfg: Config, s: State, steps: seq<Step>)
    decreases |steps|
  {
    steps == [] || (!Strands(cfg, s, steps[0]) && FaultFree(cfg, Next(cfg, s, steps[0]), steps[1..]))
  }

  /** It is enough that no task raises: no abort, and Redis up whenever an answer is recorded. */
  lemma {:induction false} NoExceptionsNoFault(cfg: Config, s: State, steps: seq<Step>)
    requires forall k :: 0 <= k < |steps| ==> !steps[k].Abort? && (steps[k].Finish? ==> steps[k].redisUp)
    ensures FaultFree(cfg, s, steps)
    decreases |steps|
  {
    if steps != [] {
      NoExceptionsNoFault(cfg, Next(cfg, s, steps[0]), steps[1..]);
    }
  }

  lemma {:induction false} RunKeepsNoStranded(cfg: Config, s: State, steps: seq<Step>)
    requires WellFormed(s) && NoStranded(s) && FaultFree(cfg, s, steps)
    ensures NoStranded(Exec(cfg, s, steps))
    decreases |steps|
  {
    if steps != [] {
      StepKeepsWellFormed(cfg, s, steps[0]);
      StepKeepsNoStrandedIff(cfg, s, steps[0]);
      RunKeepsNoStranded(cfg, Next(cfg, s, steps[0]), steps[1..]);
    }
  }

  ghost predicate NeverStranded(cfg: Config, s: State, steps: seq<Step>) {
    forall k :: 0 <= k <= |steps| ==> NoStranded(Exec(cfg, s, steps[..k]))
  }

  /** Over any run nobody is ever stranded exactly if no exception leaves the last task of a delivery that needs it. */
  lemma {:induction false} NeverStrandedIff(cfg: Config, s: State, steps: seq<Step>)
    requires WellFormed(s) && NoStranded(s)
    ensures NeverStranded(cfg, s, steps) <==> FaultFree(cfg, s, steps)
    decreases |steps|
  {
    assert steps[..0] == [];
    if steps != [] {
      var s', rest := Next(cfg, s, steps[0]), steps[1..];
      StepKeepsWellFormed(cfg, s, steps[0]);
      StepKeepsNoStrandedIff(cfg, s, steps[0]);
      if NoStranded(s') {
        NeverStrandedIff(cfg, s', rest);
        NeverStrandedShift(cfg, s, steps);
      } else {
        assert steps[..1] == [steps[0]];
        ExecOne(cfg, s, steps[0]);
      }
    }
  }

  lemma NeverStrandedShift(cfg: Config, s: State, steps: seq<Step>)
    requires steps != [] && NoStranded(s)
    ensures NeverStranded(cfg, s, steps) <==> NeverStranded(cfg, Next(cfg, s, steps[0]), steps[1..])
  {
    var s', rest := Next(cfg, s, steps[0]), steps[1..];
    forall k | 0 <= k <= |rest|
      ensures Exec(cfg, s, steps[..k + 1]) == Exec(cfg, s', rest[..k])
    {
      assert steps[..k + 1][0] == steps[0] && steps[..k + 1][1..] == rest[..k];
    }
    if NeverStranded(cfg, s, steps) {
      forall k | 0 <= k <= |rest|
        ensures NoStranded(Exec(cfg, s', rest[..k]))
      {
        assert NoStranded(Exec(cfg, s, steps[..k + 1]));
      }
    }
    if NeverStranded(cfg, s', rest) {
      forall k | 0 <= k <= |steps|
        ensures NoStranded(Exec(cfg, s, steps[..k]))
      {
        assert k > 0 ==> NoStranded(Exec(cfg, s', rest[..k - 1]));
      }
    }
  }

  /**
   * Any workers, crashes, redelivery, forced retries and replays: a SENDING delivery has a task that
   * is queued or still running, and a PENDING one has a retry time or such a task.
   */
  lemma NoStrandedDelivery(cfg: Config, accounts: map<nat, Account>, steps: seq<Step>, d: nat)
    requires FaultFree(cfg, Initial(accounts), steps)
    requires d < |Exec(cfg, Initial(accounts), steps).tables.deliveries|
    ensures var s := Exec(cfg, Initial(accounts), steps);
      var row := s.tables.deliveries[d];
      row.status == SENDING || (row.status == PENDING && row.nextRetryAt.None?) ==>
        exists t: nat :: t < |s.tasks| && s.tasks[t].message.delivery == Some(d) && s.tasks[t].phase.Live()
  {
    RunKeepsNoStranded(cfg, Initial(accounts), steps);
    var s := Exec(cfg, Initial(accounts), steps);
    if NeedsTask(s.tables.deliveries[d]) {
      var t: nat :| LiveFor(s, t, d);
      assert s.tasks[t].message.delivery == Some(d) && s.tasks[t].phase.Live();
    }
  }

  lemma ReachGuardFault(cfg: Config) returns (w: World)
    ensures Leads(cfg, World(Initial(ACCOUNTS), map[]), [Submit(REQUEST, 0.0)] + [Load(0), Abort(0)], w)
    ensures |w.state.tables.deliveries| == 1 && NeedsTask(w.state.tables.deliveries[0])
    ensures !HasLive(w.state, 0)
  {
    var w1 := FirstSubmission(cfg);
    w := LeadsTwo(cfg, w1, Load(0), Abort(0));
    LeadsThen(cfg, World(Initial(ACCOUNTS), map[]), [Submit(REQUEST, 0.0)], w1, [Load(0), Abort(0)], w);
    assert w.state.tasks[0].phase.Ended? && w.state.tables == w1.state.tables;
  }

  /** The condition is needed: Redis down at the guard of a first run leaves the delivery PENDING for ever. */
  lemma GuardFaultStrands(cfg: Config)
    ensures var steps := [Submit(REQUEST, 0.0)] + [Load(0), Abort(0)];
      var s := Exec(cfg, Initial(ACCOUNTS), steps);
      && CanHappen(cfg, ACCOUNTS, steps, s)
      && |s.tables.deliveries| == 1 && NeedsTask(s.tables.deliveries[0])
      && !HasLive(s, 0)
  {
    var w := ReachGuardFault(cfg);
    LeadsHappens(cfg, ACCOUNTS, [Submit(REQUEST, 0.0)] + [Load(0), Abort(0)], w);
  }
}
