/**
 * What the breaker guarantees a failing provider when one account's send tasks run one at a time
 * (src/infrastructure/queue/tasks/send_document_task.py, lines 68-121).
 */
module Outage {
  import opened Core
  import opened Breaker
  import opened Store
  import opened Worker

  /** What the breaker hears after the guard: nothing on a refusal for good, or if the report does not get through. */
  datatype ProviderAnswer = Accepts | FailsTransiently | ReportsNothing

  /** One send task: the time of its guard, and what is reported if the guard lets it through. */
  datatype Job = Job(checkedAt: real, answeredAt: real, answer: ProviderAnswer)

  /** What a task reports to the breaker. */
  ghost function Work(cfg: Config, es: seq<Event>, job: Job): seq<Event> {
    var checked := es + [Checked(job.checkedAt)];
    if Rejects(cfg, es, job.checkedAt) then checked
    else match job.answer
      case Accepts => checked + [Succeeded(job.answeredAt)]
      case FailsTransiently => checked + [Failed(job.answeredAt)]
      case ReportsNothing => checked
  }

  ghost function Journal(cfg: Config, jobs: seq<Job>): seq<Event> {
    if jobs == [] then [] else Work(cfg, Journal(cfg, jobs[..|jobs| - 1]), jobs[|jobs| - 1])
  }

  /** A run of send_document as a job. */
  function JobOf(run: RunInput): Job {
    Job(run.checkedAt, run.answeredAt,
        if !run.factoryUp || !run.redisUp then ReportsNothing
        else if run.answer.Accepted? then Accepts
        else if run.answer.IsTransientError() then FailsTransiently
        else ReportsNothing)
  }

  /** The guard gave its verdict. */
  predicate Guarded(verdict: Verdict) {
    verdict.CircuitOpen? || verdict.FactoryRaised? || verdict.Answered?
  }

  /** What SendDocument tells the breaker, wherever the run ends: its job's work, or nothing before the guard. */
  lemma WorkIsWhatWorkersReport(cfg: Config, t: Tables, past: seq<Event>, id: nat, run: RunInput)
    ensures var verdict := VerdictOf(cfg, t, past, id, run);
      past + Reports(verdict, run) == if Guarded(verdict) then Work(cfg, past, JobOf(run)) else past
  {
    var c := Checked(run.checkedAt);
    assert past + ([c] + AnswerReports(run)) == past + [c] + AnswerReports(run);
    assert past + [c] + [] == past + [c];
  }

  /** Each task ends before the next one starts. */
  predicate OneAtATime(jobs: seq<Job>) {
    && (forall k :: 0 <= k < |jobs| ==> jobs[k].checkedAt <= jobs[k].answeredAt)
    && (forall j, k :: 0 <= j < k < |jobs| ==> jobs[j].answeredAt <= jobs[k].checkedAt)
  }

  predicate InWindow(e: Event, from: real, to: real) {
    from <= e.at < to
  }

  function FailedWithin(from: real, to: real): Event -> bool {
    (e: Event) => e.Failed? && InWindow(e, from, to)
  }

  function SucceededWithin(from: real, to: real): Event -> bool {
    (e: Event) => e.Succeeded? && InWindow(e, from, to)
  }

  // ---- The journal is ordered ----

  ghost predicate EndsBy(es: seq<Event>, time: real) {
    Ordered(es) && NotBefore(es, time)
  }

  lemma OrderedSnoc(es: seq<Event>, e: Event)
    requires EndsBy(es, e.at)
    ensures EndsBy(es + [e], e.at)
  {
  }

  lemma {:induction false} JournalOrdered(cfg: Config, jobs: seq<Job>)
    requires OneAtATime(jobs)
    ensures jobs == [] ==> Journal(cfg, jobs) == []
    ensures jobs != [] ==> EndsBy(Journal(cfg, jobs), jobs[|jobs| - 1].answeredAt)
  {
    if jobs != [] {
      var earlier, job := jobs[..|jobs| - 1], jobs[|jobs| - 1];
      JournalOrdered(cfg, earlier);
      var es := Journal(cfg, earlier);
      OrderedSnoc(es, Checked(job.checkedAt));
      if !Rejects(cfg, es, job.checkedAt) {
        OrderedSnoc(es + [Checked(job.checkedAt)], Succeeded(job.answeredAt));
        OrderedSnoc(es + [Checked(job.checkedAt)], Failed(job.answeredAt));
      }
    }
  }

  // ---- Few failures per window ----

  /**
   * While the window [from, to) is still open: either a trip inside it already blocks every call,
   * or all its failures belong to the current run and have not completed a multiple of the threshold.
   */
  ghost predicate WindowBudget(cfg: Config, es: seq<Event>, from: real, to: real) {
    var failures := Count(es, FailedWithin(from, to));
    && failures <= cfg.failureThreshold
    && (es != [] && es[|es| - 1].at < from ==> failures == 0)
    && (es == [] ==> failures == 0)
    && (NotBefore(es, to) && (es == [] || es[|es| - 1].at < to) ==>
          var trip := LastTrip(cfg, es);
          if trip.Some? && es[trip.value].at >= from then true
          else failures <= Run(es) % cfg.failureThreshold)
  }

  lemma CheckKeepsBudget(cfg: Config, es: seq<Event>, at: real, from: real, to: real)
    requires EndsBy(es, at) && WindowBudget(cfg, es, from, to)
    ensures WindowBudget(cfg, es + [Checked(at)], from, to)
  {
    CountAppend(es, Checked(at), FailedWithin(from, to));
    OtherKeepsTrip(cfg, es, Checked(at));
    assert (es + [Checked(at)])[..|es|] == es;
  }

  lemma SuccessKeepsBudget(cfg: Config, es: seq<Event>, at: real, from: real, to: real)
    requires EndsBy(es, at) && WindowBudget(cfg, es, from, to) && !(from <= at < to)
    ensures WindowBudget(cfg, es + [Succeeded(at)], from, to)
  {
    CountAppend(es, Succeeded(at), FailedWithin(from, to));
    OtherKeepsTrip(cfg, es, Succeeded(at));
    assert (es + [Succeeded(at)])[..|es|] == es;
    assert 0 % cfg.failureThreshold == 0;
  }

  /** A reported failure was let through by the guard at some `checkedAt` no later than the window's end. */
  lemma FailureKeepsBudget(cfg: Config, es: seq<Event>, checkedAt: real, at: real, from: real, to: real)
    requires EndsBy(es, checkedAt) && checkedAt <= at && to - from <= cfg.recoveryTimeout
    requires !Rejects(cfg, es, checkedAt) && WindowBudget(cfg, es, from, to)
    ensures WindowBudget(cfg, es + [Failed(at)], from, to)
  {
    var es' := es + [Failed(at)];
    CountAppend(es, Failed(at), FailedWithin(from, to));
    assert es'[..|es|] == es && es'[..|es| + 1] == es';
    ModuloStep(Run(es), cfg.failureThreshold);
  }

  lemma JobKeepsBudget(cfg: Config, es: seq<Event>, job: Job, from: real, to: real)
    requires EndsBy(es, job.checkedAt) && job.checkedAt <= job.answeredAt && to - from <= cfg.recoveryTimeout
    requires WindowBudget(cfg, es, from, to)
    requires Count(Work(cfg, es, job), SucceededWithin(from, to)) == 0
    ensures WindowBudget(cfg, Work(cfg, es, job), from, to)
  {
    var c := Checked(job.checkedAt);
    CheckKeepsBudget(cfg, es, job.checkedAt, from, to);
    OrderedSnoc(es, c);
    if !Rejects(cfg, es, job.checkedAt) {
      CheckChangesNoVerdict(cfg, es, job.checkedAt);
      match job.answer {
        case Accepts =>
          CountAppend(es + [c], Succeeded(job.answeredAt), SucceededWithin(from, to));
          SuccessKeepsBudget(cfg, es + [c], job.answeredAt, from, to);
        case FailsTransiently =>
          FailureKeepsBudget(cfg, es + [c], job.checkedAt, job.answeredAt, from, to);
        case ReportsNothing =>
      }
    }
  }

  lemma WorkOnlyAdds(cfg: Config, es: seq<Event>, job: Job, p: Event -> bool)
    ensures Count(es, p) <= Count(Work(cfg, es, job), p)
  {
    var c := Checked(job.checkedAt);
    CountAppend(es, c, p);
    CountAppend(es + [c], Succeeded(job.answeredAt), p);
    CountAppend(es + [c], Failed(job.answeredAt), p);
  }

  lemma {:induction false} BudgetOfJournal(cfg: Config, jobs: seq<Job>, from: real, to: real)
    requires OneAtATime(jobs) && to - from <= cfg.recoveryTimeout
    requires Count(Journal(cfg, jobs), SucceededWithin(from, to)) == 0
    ensures WindowBudget(cfg, Journal(cfg, jobs), from, to)
  {
    if jobs == [] {
      assert 0 % cfg.failureThreshold == 0;
    } else {
      var earlier, job := jobs[..|jobs| - 1], jobs[|jobs| - 1];
      JournalOrdered(cfg, earlier);
      WorkOnlyAdds(cfg, Journal(cfg, earlier), job, SucceededWithin(from, to));
      BudgetOfJournal(cfg, earlier, from, to);
      JobKeepsBudget(cfg, Journal(cfg, earlier), job, from, to);
    }
  }

  lemma CheckChangesNoVerdict(cfg: Config, es: seq<Event>, now: real)
    ensures Rejects(cfg, es + [Checked(now)], now) <==> Rejects(cfg, es, now)
  {
    var es' := es + [Checked(now)];
    OtherKeepsTrip(cfg, es, Checked(now));
    var trip := LastTrip(cfg, es);
    if trip.Some? {
      assert forall i: nat :: LatestFailure(es, i) ==> i == trip.value;
      assert forall i: nat :: LatestFailure(es', i) ==> i == trip.value;
    }
  }

  /** A window no longer than the recovery timeout and without a success sees at most `threshold` failures. */
  lemma OutageLoadBound(cfg: Config, jobs: seq<Job>, from: real, to: real)
    requires OneAtATime(jobs) && to - from <= cfg.recoveryTimeout
    requires Count(Journal(cfg, jobs), SucceededWithin(from, to)) == 0
    ensures Count(Journal(cfg, jobs), FailedWithin(from, to)) <= cfg.failureThreshold
  {
    BudgetOfJournal(cfg, jobs, from, to);
  }

  // ---- Quiet after a trip ----

  /** A trip is either still the latest failure, or its timeout is over. */
  ghost predicate TripsRespected(cfg: Config, es: seq<Event>) {
    forall i: nat :: TripsAt(cfg, es, i) ==>
      LatestFailure(es, i) || es[|es| - 1].at - es[i].at >= cfg.recoveryTimeout
  }

  lemma EventKeepsTrips(cfg: Config, es: seq<Event>, e: Event, checkedAt: real)
    requires EndsBy(es, checkedAt) && checkedAt <= e.at && TripsRespected(cfg, es)
    requires e.Failed? ==> !Rejects(cfg, es, checkedAt)
    ensures TripsRespected(cfg, es + [e])
  {
    var es' := es + [e];
    assert es'[..|es|] == es;
    TripsAtPrefix(cfg, es', |es|);
    forall i: nat | TripsAt(cfg, es', i)
      ensures LatestFailure(es', i) || e.at - es'[i].at >= cfg.recoveryTimeout
    {
      if i < |es| {
        assert TripsAt(cfg, es, i);
      }
    }
  }

  lemma {:induction false} JournalRespectsTrips(cfg: Config, jobs: seq<Job>)
    requires OneAtATime(jobs)
    ensures TripsRespected(cfg, Journal(cfg, jobs))
  {
    if jobs != [] {
      var earlier, job := jobs[..|jobs| - 1], jobs[|jobs| - 1];
      var es, c := Journal(cfg, earlier), Checked(job.checkedAt);
      JournalOrdered(cfg, earlier);
      JournalRespectsTrips(cfg, earlier);
      EventKeepsTrips(cfg, es, c, job.checkedAt);
      if !Rejects(cfg, es, job.checkedAt) {
        CheckChangesNoVerdict(cfg, es, job.checkedAt);
        OrderedSnoc(es, c);
        EventKeepsTrips(cfg, es + [c], Succeeded(job.answeredAt), job.checkedAt);
        EventKeepsTrips(cfg, es + [c], Failed(job.answeredAt), job.checkedAt);
      }
    }
  }

  /** Any task let through after any trip, however long ago, starts its call at least a timeout later. */
  lemma QuietAfterTrip(cfg: Config, jobs: seq<Job>, job: Job, trip: nat)
    requires OneAtATime(jobs + [job])
    requires TripsAt(cfg, Journal(cfg, jobs), trip)
    requires !Rejects(cfg, Journal(cfg, jobs), job.checkedAt)
    ensures job.checkedAt - Journal(cfg, jobs)[trip].at >= cfg.recoveryTimeout
  {
    assert forall k :: 0 <= k < |jobs| ==> (jobs + [job])[k] == jobs[k];
    assert (jobs + [job])[|jobs|] == job;
    assert OneAtATime(jobs);
    JournalOrdered(cfg, jobs);
    JournalRespectsTrips(cfg, jobs);
    assert jobs[|jobs| - 1].answeredAt <= job.checkedAt;
  }

  // ---- The same for the task itself ----

  /** One run of send_document: the tables and delivery it is given, and its environment. */
  datatype TaskRun = TaskRun(tables: Tables, delivery: nat, input: RunInput)

  /** Where a run ends, given the history of its account. */
  ghost function VerdictAfter(cfg: Config, past: seq<Event>, r: TaskRun): Verdict {
    VerdictOf(cfg, r.tables, past, r.delivery, r.input)
  }

  /** The history of one account after these runs of its tasks, each adding what SendDocument reports. */
  ghost function Reported(cfg: Config, runs: seq<TaskRun>): seq<Event> {
    if runs == [] then []
    else
      var past, r := Reported(cfg, runs[..|runs| - 1]), runs[|runs| - 1];
      past + Reports(VerdictAfter(cfg, past, r), r.input)
  }

  ghost function JobsOf(cfg: Config, runs: seq<TaskRun>): seq<Job> {
    if runs == [] then []
    else
      var earlier, r := runs[..|runs| - 1], runs[|runs| - 1];
      JobsOf(cfg, earlier)
      + if Guarded(VerdictAfter(cfg, Reported(cfg, earlier), r)) then [JobOf(r.input)] else []
  }

  /** The runs the provider answers. */
  ghost function AnsweredRuns(cfg: Config, runs: seq<TaskRun>): seq<RunInput> {
    if runs == [] then []
    else
      var earlier, r := runs[..|runs| - 1], runs[|runs| - 1];
      AnsweredRuns(cfg, earlier)
      + if VerdictAfter(cfg, Reported(cfg, earlier), r).Answered? then [r.input] else []
  }

  /** Each run ends before the next one starts. */
  predicate RunsInOrder(runs: seq<TaskRun>) {
    && (forall k :: 0 <= k < |runs| ==> runs[k].input.checkedAt <= runs[k].input.answeredAt)
    && (forall j, k :: 0 <= j < k < |runs| ==> runs[j].input.answeredAt <= runs[k].input.checkedAt)
  }

  lemma {:induction false} ReportedIsJournal(cfg: Config, runs: seq<TaskRun>)
    ensures Reported(cfg, runs) == Journal(cfg, JobsOf(cfg, runs))
  {
    if runs != [] {
      var earlier, r := runs[..|runs| - 1], runs[|runs| - 1];
      ReportedIsJournal(cfg, earlier);
      WorkIsWhatWorkersReport(cfg, r.tables, Reported(cfg, earlier), r.delivery, r.input);
      var jobs := JobsOf(cfg, earlier);
      assert (jobs + [JobOf(r.input)])[..|jobs|] == jobs && jobs + [] == jobs;
    }
  }

  lemma {:induction false} JobsInOrder(cfg: Config, runs: seq<TaskRun>)
    requires RunsInOrder(runs)
    ensures OneAtATime(JobsOf(cfg, runs))
    ensures forall k :: 0 <= k < |JobsOf(cfg, runs)| ==>
      JobsOf(cfg, runs)[k].answeredAt <= runs[|runs| - 1].input.answeredAt
  {
    if runs != [] {
      var earlier, r := runs[..|runs| - 1], runs[|runs| - 1];
      JobsInOrder(cfg, earlier);
      assert forall k :: 0 <= k < |JobsOf(cfg, earlier)| ==>
        JobsOf(cfg, earlier)[k].answeredAt <= r.input.checkedAt;
    }
  }

  predicate AnsweredWithin(run: RunInput, from: real, to: real) {
    run.redisUp && from <= run.answeredAt < to
  }

  /** Transient errors the provider answered in the window with Redis up; then the same for acceptances. */
  function ErrorsWithin(from: real, to: real): RunInput -> bool {
    (run: RunInput) => run.answer.IsTransientError() && AnsweredWithin(run, from, to)
  }

  function AcceptedWithin(from: real, to: real): RunInput -> bool {
    (run: RunInput) => run.answer.Accepted? && AnsweredWithin(run, from, to)
  }

  lemma RunCounts(past: seq<Event>, verdict: Verdict, run: RunInput, from: real, to: real)
    ensures var after, answered := past + Reports(verdict, run), verdict.Answered?;
      && Count(after, FailedWithin(from, to))
         == Count(past, FailedWithin(from, to)) + (if answered && ErrorsWithin(from, to)(run) then 1 else 0)
      && Count(after, SucceededWithin(from, to))
         == Count(past, SucceededWithin(from, to)) + (if answered && AcceptedWithin(from, to)(run) then 1 else 0)
  {
    var c := Checked(run.checkedAt);
    assert past + [] == past && past + ([c] + AnswerReports(run)) == past + [c] + AnswerReports(run);
    assert past + [c] + [] == past + [c];
    CountAppend(past, c, FailedWithin(from, to));
    CountAppend(past, c, SucceededWithin(from, to));
    if AnswerReports(run) != [] {
      CountAppend(past + [c], AnswerReports(run)[0], FailedWithin(from, to));
      CountAppend(past + [c], AnswerReports(run)[0], SucceededWithin(from, to));
    }
  }

  /** The failures in the account's history are the transient errors the provider answered. */
  lemma {:induction false} AnswersAreReports(cfg: Config, runs: seq<TaskRun>, from: real, to: real)
    ensures Count(Reported(cfg, runs), FailedWithin(from, to))
         == Count(AnsweredRuns(cfg, runs), ErrorsWithin(from, to))
    ensures Count(Reported(cfg, runs), SucceededWithin(from, to))
         == Count(AnsweredRuns(cfg, runs), AcceptedWithin(from, to))
  {
    if runs != [] {
      var earlier, r := runs[..|runs| - 1], runs[|runs| - 1];
      AnswersAreReports(cfg, earlier, from, to);
      RunCounts(Reported(cfg, earlier), VerdictAfter(cfg, Reported(cfg, earlier), r), r.input, from, to);
      var answered := AnsweredRuns(cfg, earlier);
      assert answered + [] == answered;
      CountAppend(answered, r.input, ErrorsWithin(from, to));
      CountAppend(answered, r.input, AcceptedWithin(from, to));
    }
  }

  /**
   * Whatever else goes wrong with the runs, a window no longer than the recovery timeout in which Redis
   * hears of no acceptance holds at most `threshold` transient errors that Redis hears of.
   */
  lemma WorkersLoadBound(cfg: Config, runs: seq<TaskRun>, from: real, to: real)
    requires RunsInOrder(runs) && to - from <= cfg.recoveryTimeout
    requires Count(AnsweredRuns(cfg, runs), AcceptedWithin(from, to)) == 0
    ensures Count(AnsweredRuns(cfg, runs), ErrorsWithin(from, to)) <= cfg.failureThreshold
  {
    ReportedIsJournal(cfg, runs);
    JobsInOrder(cfg, runs);
    AnswersAreReports(cfg, runs, from, to);
    OutageLoadBound(cfg, JobsOf(cfg, runs), from, to);
  }

  /** A run that gets past the guard after any earlier trip was checked at least a timeout after it. */
  lemma WorkersQuietAfterTrip(cfg: Config, runs: seq<TaskRun>, r: TaskRun, trip: nat)
    requires RunsInOrder(runs + [r])
    requires TripsAt(cfg, Reported(cfg, runs), trip)
    requires var verdict := VerdictAfter(cfg, Reported(cfg, runs), r); verdict.FactoryRaised? || verdict.Answered?
    ensures r.input.checkedAt - Reported(cfg, runs)[trip].at >= cfg.recoveryTimeout
  {
    ReportedIsJournal(cfg, runs);
    assert (runs + [r])[..|runs|] == runs;
    JobsInOrder(cfg, runs + [r]);
    QuietAfterTrip(cfg, JobsOf(cfg, runs), JobOf(r.input), trip);
  }
}
