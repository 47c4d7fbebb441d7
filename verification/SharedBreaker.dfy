/**
 * The circuit breaker with several workers on one Redis hash.
 *
 * Every pipeline or single command is one atomic step. record_failure is two steps (increment, then
 * the OPEN pipeline); get_state is a read and, when the timeout has passed, a separate write;
 * record_success goes on from get_state with up to three more commands. A worker may crash anywhere.
 */
module SharedBreaker {
  import opened Core
  import opened Breaker

  /** What a worker will do next. */
  datatype Pc =
    | Idle
    | Opening(ticket: nat)          // record_failure saw a count at the threshold; OPEN not yet written
    | Expiring(reporting: bool)     // get_state read an expired OPEN; HALF_OPEN not yet written
    | Reporting(state: CircuitState) // record_success knows the state get_state returned
    | Counted(successes: int)       // record_success read half_open_successes
    | Closing                       // record_success counted the last success; CLOSED not yet written

  /**
   * `seen[k]` is the count returned by the k-th increment, `opens` the tickets (increment numbers)
   * of the OPEN writes so far, `abandoned` the crashes between an increment and its OPEN write since
   * the counter was last set to zero.
   */
  datatype Shared = Shared(hash: Hash, workers: seq<Pc>, seen: seq<int>, opens: seq<nat>, abandoned: nat)

  datatype Step =
    | Increment(w: nat)
    | WriteOpen(w: nat, now: real)
    | ReadState(w: nat, reporting: bool, now: real)
    | WriteHalfOpen(w: nat)
    | ReadSuccesses(w: nat)
    | WriteSuccesses(w: nat)
    | WriteClosed(w: nat, now: real)
    | ResetFailures(w: nat)
    | Crash(w: nat)

  function Start(workers: nat): Shared {
    Shared(EMPTY_HASH, seq(workers, _ => Idle), [], [], 0)
  }

  predicate Enabled(s: Shared, step: Step) {
    && step.w < |s.workers|
    && match step
       case Increment(w) => s.workers[w].Idle?
       case WriteOpen(w, _) => s.workers[w].Opening?
       case ReadState(w, _, _) => s.workers[w].Idle?
       case WriteHalfOpen(w) => s.workers[w].Expiring?
       case ReadSuccesses(w) => s.workers[w] == Reporting(HALF_OPEN)
       case WriteSuccesses(w) => s.workers[w].Counted?
       case WriteClosed(w, _) => s.workers[w].Closing?
       case ResetFailures(w) => s.workers[w] == Reporting(CLOSED)
       case Crash(_) => true
  }

  function Goto(s: Shared, w: nat, pc: Pc): Shared
    requires w < |s.workers|
  {
    s.(workers := s.workers[w := pc])
  }

  /** The effect of one step; a step that is not enabled changes nothing. */
  function Next(cfg: Config, s: Shared, step: Step): Shared {
    if !Enabled(s, step) then s
    else match step
      case Increment(w) =>
        var count := s.hash.failures + 1;
        Goto(s, w, if count >= cfg.failureThreshold then Opening(|s.seen|) else Idle)
          .(hash := s.hash.(failures := count, state := CLOSED), seen := s.seen + [count])
      case WriteOpen(w, now) =>
        Goto(s, w, Idle).(hash := Transition(s.hash, OPEN, now), abandoned := 0,
                          opens := s.opens + [s.workers[w].ticket])
      case ReadState(w, reporting, now) =>
        if Expired(cfg, s.hash, now) then Goto(s, w, Expiring(reporting))
        else if reporting && s.hash.state != OPEN then Goto(s, w, Reporting(s.hash.state))
        else s
      case WriteHalfOpen(w) =>
        Goto(s, w, if s.workers[w].reporting then Reporting(HALF_OPEN) else Idle)
          .(hash := s.hash.(state := HALF_OPEN))
      case ReadSuccesses(w) => Goto(s, w, Counted(s.hash.halfOpenSuccesses))
      case WriteSuccesses(w) =>
        var count := s.workers[w].successes + 1;
        Goto(s, w, if count >= cfg.halfOpenMax then Closing else Idle)
          .(hash := s.hash.(halfOpenSuccesses := count))
      case WriteClosed(w, now) => Goto(s, w, Idle).(hash := Transition(s.hash, CLOSED, now), abandoned := 0)
      case ResetFailures(w) => Goto(s, w, Idle).(hash := s.hash.(failures := 0), abandoned := 0)
      case Crash(w) =>
        Goto(s, w, Idle).(abandoned := s.abandoned + if s.workers[w].Opening? then 1 else 0)
  }

  function Exec(cfg: Config, s: Shared, steps: seq<Step>): Shared
    decreases |steps|
  {
    if steps == [] then s else Exec(cfg, Next(cfg, s, steps[0]), steps[1..])
  }

  const OPENING: Pc -> bool := (pc: Pc) => pc.Opening?

  function PendingOpens(s: Shared): nat {
    Count(s.workers, OPENING)
  }

  /** The commands one call sends; a command whose branch is not taken is a step that is not enabled. */
  function CallSteps(w: nat, e: Event): seq<Step> {
    match e
    case Checked(now) => [ReadState(w, false, now), WriteHalfOpen(w)]
    case Failed(now) => [Increment(w), WriteOpen(w, now)]
    case Succeeded(now) =>
      [ReadState(w, true, now), WriteHalfOpen(w), ReadSuccesses(w)]
      + [WriteSuccesses(w), WriteClosed(w, now), ResetFailures(w)]
  }

  /** A call that nobody interrupts does to the hash what the one-caller breaker does. */
  lemma UninterruptedCallIsApply(cfg: Config, s: Shared, w: nat, e: Event)
    requires w < |s.workers| && s.workers[w].Idle?
    ensures var s' := Exec(cfg, s, CallSteps(w, e));
      s'.hash == Apply(cfg, s.hash, e) && s'.workers == s.workers
  {
    match e {
      case Checked(now) => ExecTwo(cfg, s, ReadState(w, false, now), WriteHalfOpen(w));
      case Failed(now) => ExecTwo(cfg, s, Increment(w), WriteOpen(w, now));
      case Succeeded(now) =>
        ExecSplit(cfg, s, CallSteps(w, e)[..3], CallSteps(w, e)[3..]);
        SuccessReads(cfg, s, w, now);
        SuccessWrites(cfg, Exec(cfg, s, CallSteps(w, e)[..3]), w, now);
    }
  }

  /** The first half of record_success: what get_state saw, and the half-open count if it was HALF_OPEN. */
  lemma SuccessReads(cfg: Config, s: Shared, w: nat, now: real)
    requires w < |s.workers| && s.workers[w].Idle?
    ensures CallSteps(w, Succeeded(now)) == CallSteps(w, Succeeded(now))[..3] + CallSteps(w, Succeeded(now))[3..]
    ensures var s' := Exec(cfg, s, CallSteps(w, Succeeded(now))[..3]);
      && s'.hash == Observe(cfg, s.hash, now)
      && s'.workers == s.workers[w := match s'.hash.state
                                      case HALF_OPEN => Counted(s.hash.halfOpenSuccesses)
                                      case CLOSED => Reporting(CLOSED)
                                      case OPEN => Idle]
  {
    assert CallSteps(w, Succeeded(now))[..3] == [ReadState(w, true, now), WriteHalfOpen(w), ReadSuccesses(w)];
    ExecThree(cfg, s, ReadState(w, true, now), WriteHalfOpen(w), ReadSuccesses(w));
  }

  /** The second half: the count or the reset. */
  lemma SuccessWrites(cfg: Config, s: Shared, w: nat, now: real)
    requires w < |s.workers|
    requires s.workers[w] == match s.hash.state
      case HALF_OPEN => Counted(s.hash.halfOpenSuccesses) case CLOSED => Reporting(CLOSED) case OPEN => Idle
    ensures var s' := Exec(cfg, s, CallSteps(w, Succeeded(now))[3..]);
      && s'.workers == s.workers[w := Idle]
      && s'.hash == match s.hash.state
         case HALF_OPEN =>
           var counted := s.hash.(halfOpenSuccesses := s.hash.halfOpenSuccesses + 1);
           if counted.halfOpenSuccesses >= cfg.halfOpenMax then Transition(counted, CLOSED, now) else counted
         case CLOSED => s.hash.(failures := 0)
         case OPEN => s.hash
  {
    assert CallSteps(w, Succeeded(now))[3..] == [WriteSuccesses(w), WriteClosed(w, now), ResetFailures(w)];
    ExecThree(cfg, s, WriteSuccesses(w), WriteClosed(w, now), ResetFailures(w));
  }

  lemma {:induction false} ExecSplit(cfg: Config, s: Shared, first: seq<Step>, rest: seq<Step>)
    ensures Exec(cfg, s, first + rest) == Exec(cfg, Exec(cfg, s, first), rest)
    decreases |first|
  {
    if first == [] {
      assert first + rest == rest;
    } else {
      assert (first + rest)[0] == first[0] && (first + rest)[1..] == first[1..] + rest;
      ExecSplit(cfg, Next(cfg, s, first[0]), first[1..], rest);
    }
  }

  lemma ExecSnoc(cfg: Config, s: Shared, steps: seq<Step>, k: nat)
    requires k < |steps|
    ensures Exec(cfg, s, steps[..k + 1]) == Next(cfg, Exec(cfg, s, steps[..k]), steps[k])
  {
    assert steps[..k + 1] == steps[..k] + [steps[k]];
    ExecSplit(cfg, s, steps[..k], [steps[k]]);
    var before := Exec(cfg, s, steps[..k]);
    assert [steps[k]][1..] == [];
    assert Exec(cfg, Next(cfg, before, steps[k]), []) == Next(cfg, before, steps[k]);
  }

  lemma ExecTwo(cfg: Config, s: Shared, a: Step, b: Step)
    ensures Exec(cfg, s, [a, b]) == Next(cfg, Next(cfg, s, a), b)
  {
    assert [a, b][1..] == [b] && [b][1..] == [];
    assert Exec(cfg, Next(cfg, s, a), [b]) == Exec(cfg, Next(cfg, Next(cfg, s, a), b), []);
  }

  lemma ExecThree(cfg: Config, s: Shared, a: Step, b: Step, c: Step)
    ensures Exec(cfg, s, [a, b, c]) == Next(cfg, Next(cfg, Next(cfg, s, a), b), c)
  {
    assert [a, b, c][1..] == [b, c];
    ExecTwo(cfg, Next(cfg, s, a), b, c);
  }

  // ---- The counter and the OPEN writes ----

  ghost predicate CounterBound(cfg: Config, s: Shared) {
    s.hash.failures < cfg.failureThreshold + PendingOpens(s) + s.abandoned
  }

  /** An unfinished OPEN write holds a ticket of its own, seen at the threshold and not yet used. */
  ghost predicate Tickets(cfg: Config, s: Shared) {
    && (forall k :: 0 <= k < |s.opens| ==> s.opens[k] < |s.seen| && s.seen[s.opens[k]] >= cfg.failureThreshold)
    && (forall j, k :: 0 <= j < k < |s.opens| ==> s.opens[j] != s.opens[k])
    && (forall w :: 0 <= w < |s.workers| && s.workers[w].Opening? ==>
          && s.workers[w].ticket < |s.seen|
          && s.seen[s.workers[w].ticket] >= cfg.failureThreshold
          && s.workers[w].ticket !in s.opens)
    && (forall v, w :: 0 <= v < w < |s.workers| && s.workers[v].Opening? && s.workers[w].Opening? ==>
          s.workers[v].ticket != s.workers[w].ticket)
  }

  lemma StepKeepsCounterBound(cfg: Config, s: Shared, step: Step)
    requires CounterBound(cfg, s)
    ensures CounterBound(cfg, Next(cfg, s, step))
  {
    if Enabled(s, step) {
      var s' := Next(cfg, s, step);
      CountUpdate(s.workers, step.w, s'.workers[step.w], OPENING);
      assert s'.workers == s.workers[step.w := s'.workers[step.w]];
    }
  }

  lemma IncrementKeepsTickets(cfg: Config, s: Shared, w: nat)
    requires Tickets(cfg, s)
    ensures Tickets(cfg, Next(cfg, s, Increment(w)))
  {
  }

  lemma WriteOpenKeepsTickets(cfg: Config, s: Shared, w: nat, now: real)
    requires Tickets(cfg, s)
    ensures Tickets(cfg, Next(cfg, s, WriteOpen(w, now)))
  {
  }

  /** The other steps hand out no ticket and use none. */
  lemma OtherKeepsTickets(cfg: Config, s: Shared, s': Shared, w: nat, pc: Pc)
    requires Tickets(cfg, s) && w < |s.workers| && !pc.Opening?
    requires s'.seen == s.seen && s'.opens == s.opens && s'.workers == s.workers[w := pc]
    ensures Tickets(cfg, s')
  {
  }

  lemma StepKeepsTickets(cfg: Config, s: Shared, step: Step)
    requires Tickets(cfg, s)
    ensures Tickets(cfg, Next(cfg, s, step))
  {
    if step.Increment? {
      IncrementKeepsTickets(cfg, s, step.w);
    } else if step.WriteOpen? {
      WriteOpenKeepsTickets(cfg, s, step.w, step.now);
    } else if Enabled(s, step) && Next(cfg, s, step) != s {
      OtherKeepsTickets(cfg, s, Next(cfg, s, step), step.w, Next(cfg, s, step).workers[step.w]);
    }
  }

  lemma {:induction false} RunKeepsCounter(cfg: Config, s: Shared, steps: seq<Step>)
    requires CounterBound(cfg, s) && Tickets(cfg, s)
    ensures CounterBound(cfg, Exec(cfg, s, steps)) && Tickets(cfg, Exec(cfg, s, steps))
    decreases |steps|
  {
    if steps != [] {
      StepKeepsCounterBound(cfg, s, steps[0]);
      StepKeepsTickets(cfg, s, steps[0]);
      RunKeepsCounter(cfg, Next(cfg, s, steps[0]), steps[1..]);
    }
  }

  /** Exec in which no worker crashes between its increment and its OPEN write. */
  predicate NoCrashInFailure(cfg: Config, s: Shared, steps: seq<Step>)
    decreases |steps|
  {
    steps == [] || (
      && !(steps[0].Crash? && steps[0].w < |s.workers| && s.workers[steps[0].w].Opening?)
      && NoCrashInFailure(cfg, Next(cfg, s, steps[0]), steps[1..]))
  }

  lemma {:induction false} NothingAbandoned(cfg: Config, s: Shared, steps: seq<Step>)
    requires s.abandoned == 0 && NoCrashInFailure(cfg, s, steps)
    ensures Exec(cfg, s, steps).abandoned == 0
    decreases |steps|
  {
    if steps != [] {
      NothingAbandoned(cfg, Next(cfg, s, steps[0]), steps[1..]);
    }
  }

  lemma {:induction false} NobodyPending(pcs: seq<Pc>)
    requires forall w :: 0 <= w < |pcs| ==> pcs[w] == Idle
    ensures Count(pcs, OPENING) == 0
  {
    if pcs != [] {
      NobodyPending(pcs[..|pcs| - 1]);
    }
  }

  /**
   * Any number of workers, any interleaving, any crashes: the counter stays below the threshold plus
   * the OPEN writes still owed by live or crashed workers, and every OPEN write belongs to an
   * increment of its own that had reached the threshold.
   */
  lemma SharedCounterSafety(cfg: Config, workers: nat, steps: seq<Step>)
    ensures var s := Exec(cfg, Start(workers), steps);
      && s.hash.failures < cfg.failureThreshold + PendingOpens(s) + s.abandoned
      && (NoCrashInFailure(cfg, Start(workers), steps) ==> s.hash.failures < cfg.failureThreshold + PendingOpens(s))
      && (forall k :: 0 <= k < |s.opens| ==> s.opens[k] < |s.seen| && s.seen[s.opens[k]] >= cfg.failureThreshold)
      && (forall j, k :: 0 <= j < k < |s.opens| ==> s.opens[j] != s.opens[k])
  {
    NobodyPending(Start(workers).workers);
    RunKeepsCounter(cfg, Start(workers), steps);
    if NoCrashInFailure(cfg, Start(workers), steps) {
      NothingAbandoned(cfg, Start(workers), steps);
    }
  }

  // ---- Does a trip hold while others are at work? ----

  predicate Tripped(cfg: Config, s: Shared, now: real) {
    s.hash.state == OPEN && now - s.hash.openedAt < cfg.recoveryTimeout
  }

  /** The steps that take an OPEN circuit out of OPEN: a late failure, or a write decided before the trip. */
  predicate Overwrites(s: Shared, step: Step) {
    Enabled(s, step) && (step.Increment? || step.WriteHalfOpen? || step.WriteClosed?)
  }

  lemma OpenSurvivesStepIff(cfg: Config, s: Shared, step: Step)
    requires s.hash.state == OPEN
    ensures Next(cfg, s, step).hash.state == OPEN <==> !Overwrites(s, step)
  {
  }

  ghost predicate OpenThroughout(cfg: Config, s: Shared, steps: seq<Step>) {
    forall k :: 0 <= k <= |steps| ==> Exec(cfg, s, steps[..k]).hash.state == OPEN
  }

  ghost predicate NeverOverwritten(cfg: Config, s: Shared, steps: seq<Step>) {
    forall k :: 0 <= k < |steps| ==> !Overwrites(Exec(cfg, s, steps[..k]), steps[k])
  }

  lemma {:induction false} OpenUpTo(cfg: Config, s: Shared, steps: seq<Step>, k: nat)
    requires s.hash.state == OPEN && NeverOverwritten(cfg, s, steps) && k <= |steps|
    ensures Exec(cfg, s, steps[..k]).hash.state == OPEN
  {
    if k == 0 {
      assert steps[..0] == [];
    } else {
      OpenUpTo(cfg, s, steps, k - 1);
      ExecSnoc(cfg, s, steps, k - 1);
      OpenSurvivesStepIff(cfg, Exec(cfg, s, steps[..k - 1]), steps[k - 1]);
    }
  }

  /** Over any interleaving the circuit stays OPEN exactly if none of the three writes happens on the way. */
  lemma OpenThroughoutIff(cfg: Config, s: Shared, steps: seq<Step>)
    requires s.hash.state == OPEN
    ensures OpenThroughout(cfg, s, steps) <==> NeverOverwritten(cfg, s, steps)
  {
    if NeverOverwritten(cfg, s, steps) {
      forall k | 0 <= k <= |steps|
        ensures Exec(cfg, s, steps[..k]).hash.state == OPEN
      {
        OpenUpTo(cfg, s, steps, k);
      }
    } else if OpenThroughout(cfg, s, steps) {
      forall k | 0 <= k < |steps|
        ensures !Overwrites(Exec(cfg, s, steps[..k]), steps[k])
      {
        ExecSnoc(cfg, s, steps, k);
        assert Exec(cfg, s, steps[..k + 1]).hash.state == OPEN;
        OpenSurvivesStepIff(cfg, Exec(cfg, s, steps[..k]), steps[k]);
      }
    }
  }

  /** No worker is past a decision that was taken before the trip. */
  ghost predicate NobodyMidway(s: Shared) {
    forall w :: 0 <= w < |s.workers| ==>
      s.workers[w].Idle? || s.workers[w].Opening? || s.workers[w] == Reporting(CLOSED)
  }

  /** Every state read in these steps happens before `deadline`, and OPEN is written no earlier than `openedAt`. */
  predicate Within(steps: seq<Step>, openedAt: real, deadline: real) {
    forall k :: 0 <= k < |steps| ==>
      && (steps[k].ReadState? ==> steps[k].now < deadline)
      && (steps[k].WriteOpen? ==> steps[k].now >= openedAt)
  }

  /** With no one midway and no failure reported, a trip stands however the workers interleave. */
  lemma {:induction false} TripHolds(cfg: Config, s: Shared, steps: seq<Step>, openedAt: real)
    requires s.hash.state == OPEN && s.hash.openedAt >= openedAt && NobodyMidway(s)
    requires Within(steps, openedAt, openedAt + cfg.recoveryTimeout)
    requires forall k :: 0 <= k < |steps| ==> !steps[k].Increment?
    ensures var end := Exec(cfg, s, steps);
      end.hash.state == OPEN && end.hash.openedAt >= openedAt && NobodyMidway(end)
    decreases |steps|
  {
    if steps != [] {
      assert Within(steps[1..], openedAt, openedAt + cfg.recoveryTimeout);
      TripHolds(cfg, Next(cfg, s, steps[0]), steps[1..], openedAt);
    }
  }

  /** Then every guard that reads the state within the timeout finds an unexpired OPEN and rejects. */
  lemma TripRejectsEveryone(cfg: Config, s: Shared, steps: seq<Step>, openedAt: real, k: nat)
    requires s.hash.state == OPEN && s.hash.openedAt >= openedAt && NobodyMidway(s)
    requires Within(steps, openedAt, openedAt + cfg.recoveryTimeout)
    requires forall k :: 0 <= k < |steps| ==> !steps[k].Increment?
    requires k < |steps| && steps[k].ReadState?
    ensures var seen := Exec(cfg, s, steps[..k]);
      Tripped(cfg, seen, steps[k].now) && Next(cfg, seen, steps[k]) == seen
  {
    TripHolds(cfg, s, steps[..k], openedAt);
  }

  /** A guard at this moment does not reject: get_state returns something else than OPEN. */
  predicate LetsThrough(cfg: Config, s: Shared, now: real) {
    s.hash.state != OPEN || Expired(cfg, s.hash, now)
  }

  lemma GuardPasses(cfg: Config, s: Shared, w: nat, now: real)
    requires s.hash.state == CLOSED
    ensures Next(cfg, s, ReadState(w, false, now)) == s
  {
  }

  /**
   * Without that condition a trip can be lost: with threshold 2 and three workers that all passed the
   * guard, the third failure report closes the circuit right after the second one opened it, and a guard
   * one second after the trip lets its task through.
   */
  lemma TripLostUnderInterleaving()
    ensures var cfg := DEFAULTS.(failureThreshold := 2);
      var guards := [ReadState(0, false, 99.0), ReadState(1, false, 99.0), ReadState(2, false, 99.0)];
      var reports := [Increment(0), Increment(1), WriteOpen(1, 100.0), Increment(2)];
      var end := Exec(cfg, Start(3), guards + reports);
      && Exec(cfg, Start(3), guards) == Start(3) && LetsThrough(cfg, Start(3), 99.0)
      && Tripped(cfg, Exec(cfg, Start(3), guards + reports[..3]), 101.0)
      && LetsThrough(cfg, end, 101.0) && end.hash.state == CLOSED && PendingOpens(end) == 0
  {
    var cfg: Config := DEFAULTS.(failureThreshold := 2);
    var guards := [ReadState(0, false, 99.0), ReadState(1, false, 99.0), ReadState(2, false, 99.0)];
    var reports := [Increment(0), Increment(1), WriteOpen(1, 100.0), Increment(2)];
    var s0 := Start(3);
    GuardPasses(cfg, s0, 0, 99.0);
    GuardPasses(cfg, s0, 1, 99.0);
    GuardPasses(cfg, s0, 2, 99.0);
    ExecThree(cfg, s0, guards[0], guards[1], guards[2]);
    ExecSplit(cfg, s0, guards, reports);
    ExecSplit(cfg, s0, guards, reports[..3]);
    LateReportCloses(cfg);
  }

  lemma LateReportCloses(cfg: Config)
    requires cfg.failureThreshold == 2 && cfg.recoveryTimeout > 1.0
    ensures var reports := [Increment(0), Increment(1), WriteOpen(1, 100.0), Increment(2)];
      && Tripped(cfg, Exec(cfg, Start(3), reports[..3]), 101.0)
      && Exec(cfg, Start(3), reports).hash.state == CLOSED
      && PendingOpens(Exec(cfg, Start(3), reports)) == 0
  {
    var steps := [Increment(0), Increment(1), WriteOpen(1, 100.0), Increment(2)];
    var s0 := Start(3);
    var s1 := Next(cfg, s0, Increment(0));
    var s2 := Next(cfg, s1, Increment(1));
    var s3 := Next(cfg, s2, WriteOpen(1, 100.0));
    var s4 := Next(cfg, s3, Increment(2));
    ExecFour(cfg, s0, steps[0], steps[1], steps[2], steps[3]);
    assert steps[..3] == [steps[0], steps[1], steps[2]];
    NobodyPending(s4.workers);
  }

  lemma ExecFour(cfg: Config, s: Shared, a: Step, b: Step, c: Step, d: Step)
    ensures Exec(cfg, s, [a, b, c]) == Next(cfg, Next(cfg, Next(cfg, s, a), b), c)
    ensures Exec(cfg, s, [a, b, c, d]) == Next(cfg, Next(cfg, Next(cfg, Next(cfg, s, a), b), c), d)
  {
    ExecThree(cfg, s, a, b, c);
    ExecThree(cfg, Next(cfg, s, a), b, c, d);
    assert [a, b, c, d][1..] == [b, c, d];
  }
}
