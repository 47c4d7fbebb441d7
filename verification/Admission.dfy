/**
 * The runs of the system that the breakers and the accounts allow. `System` leaves both free, which is
 * right for what holds over all runs; what is said to happen has to happen in one of these.
 */
module Admission {
  import opened Core
  import opened Backoff
  import opened Breaker
  import opened Store
  import opened Worker
  import opened System
  import opened Crashes

  /** A state, and what each account's breaker has been told. */
  datatype World = World(state: State, logs: map<nat, seq<Event>>) {
    function Past(account: nat): seq<Event> {
      if account in logs then logs[account] else []
    }
  }

  /** The account a worker's step is about. */
  function AccountAt(s: State, t: nat): nat
    requires t < |s.tasks| && s.tasks[t].phase.Active()
  {
    s.tasks[t].phase.row.account
  }

  /** The step agrees with the account and with the verdict of its breaker; the clock does not run backwards. */
  ghost predicate Allowed(cfg: Config, w: World, step: Step)
    requires Enabled(cfg, w.state, step)
  {
    var s := w.state;
    match step
    case FailInactive(t, _) => !ActiveAccount(s.tables, AccountAt(s, t))
    case RejectOpen(t, now, _) =>
      var past := w.Past(AccountAt(s, t));
      ActiveAccount(s.tables, AccountAt(s, t)) && NotBefore(past, now) && Rejects(cfg, past, now)
    case BeginSending(t, now) =>
      var past := w.Past(AccountAt(s, t));
      ActiveAccount(s.tables, AccountAt(s, t)) && NotBefore(past, now) && !Rejects(cfg, past, now)
    case Abort(t) => IsLoaded(s, t) ==> ActiveAccount(s.tables, AccountAt(s, t))
    case Finish(t, _, now, _) => NotBefore(w.Past(AccountAt(s, t)), now)
    case _ => true
  }

  /** What the step tells the breaker of its account. */
  function Tells(s: State, step: Step): seq<Event> {
    match step
    case RejectOpen(_, now, _) => [Checked(now)]
    case BeginSending(_, now) => [Checked(now)]
    case Finish(t, redisUp, now, _) =>
      if !redisUp || !IsReplied(s, t) then []
      else if s.tasks[t].phase.answer.Accepted? then [Succeeded(now)]
      else if s.tasks[t].phase.answer.IsTransientError() then [Failed(now)]
      else []
    case _ => []
  }

  /** A step that is not enabled changes nothing. */
  function Advance(cfg: Config, w: World, step: Step): World {
    if !Enabled(cfg, w.state, step) || Tells(w.state, step) == [] then w.(state := Next(cfg, w.state, step))
    else
      var account := AccountAt(w.state, step.t);
      World(Next(cfg, w.state, step), w.logs[account := w.Past(account) + Tells(w.state, step)])
  }

  function Play(cfg: Config, w: World, steps: seq<Step>): World
    decreases |steps|
  {
    if steps == [] then w else Play(cfg, Advance(cfg, w, steps[0]), steps[1..])
  }

  /** Every step is enabled and allowed where it is taken. */
  ghost predicate Playable(cfg: Config, w: World, steps: seq<Step>)
    decreases |steps|
  {
    steps == [] || (
      && Enabled(cfg, w.state, steps[0])
      && Allowed(cfg, w, steps[0])
      && Playable(cfg, Advance(cfg, w, steps[0]), steps[1..]))
  }

  lemma {:induction false} PlayIsExec(cfg: Config, w: World, steps: seq<Step>)
    ensures Play(cfg, w, steps).state == Exec(cfg, w.state, steps)
    decreases |steps|
  {
    if steps != [] {
      PlayIsExec(cfg, Advance(cfg, w, steps[0]), steps[1..]);
    }
  }

  lemma {:induction false} PlaySplit(cfg: Config, w: World, first: seq<Step>, rest: seq<Step>)
    ensures Play(cfg, w, first + rest) == Play(cfg, Play(cfg, w, first), rest)
    ensures Playable(cfg, w, first + rest) <==>
      Playable(cfg, w, first) && Playable(cfg, Play(cfg, w, first), rest)
    decreases |first|
  {
    if first == [] {
      assert first + rest == rest;
    } else {
      assert (first + rest)[0] == first[0] && (first + rest)[1..] == first[1..] + rest;
      PlaySplit(cfg, Advance(cfg, w, first[0]), first[1..], rest);
    }
  }

  lemma PlayOne(cfg: Config, w: World, step: Step)
    ensures Play(cfg, w, [step]) == Advance(cfg, w, step)
    ensures Playable(cfg, w, [step]) <==> Enabled(cfg, w.state, step) && Allowed(cfg, w, step)
  {
    assert [step][1..] == [];
    assert Play(cfg, Advance(cfg, w, step), []) == Advance(cfg, w, step);
    assert Playable(cfg, Advance(cfg, w, step), []);
  }

  lemma PlayTwo(cfg: Config, w: World, a: Step, b: Step)
    ensures var w1 := Advance(cfg, w, a);
      && Play(cfg, w, [a, b]) == Advance(cfg, w1, b)
      && (Playable(cfg, w, [a, b]) <==>
            && Enabled(cfg, w.state, a) && Allowed(cfg, w, a)
            && Enabled(cfg, w1.state, b) && Allowed(cfg, w1, b))
  {
    var w1 := Advance(cfg, w, a);
    assert [a, b][1..] == [b] && [b][1..] == [];
    assert Play(cfg, w1, [b]) == Play(cfg, Advance(cfg, w1, b), []);
    assert Playable(cfg, Advance(cfg, w1, b), []);
  }

  // ---- Runs as traces ----

  /** Step k is enabled and allowed in world k, and leads to world k + 1. */
  ghost predicate Takes(cfg: Config, trace: seq<World>, steps: seq<Step>, k: nat)
    requires k < |steps| && |trace| == |steps| + 1
  {
    && Enabled(cfg, trace[k].state, steps[k])
    && Allowed(cfg, trace[k], steps[k])
    && trace[k + 1] == Advance(cfg, trace[k], steps[k])
  }

  ghost predicate IsTrace(cfg: Config, trace: seq<World>, steps: seq<Step>) {
    |trace| == |steps| + 1 && forall k: nat :: k < |steps| ==> Takes(cfg, trace, steps, k)
  }

  /** The steps lead from w to w', each enabled and allowed where it is taken. */
  ghost predicate Leads(cfg: Config, w: World, steps: seq<Step>, w': World) {
    exists trace :: IsTrace(cfg, trace, steps) && trace[0] == w && trace[|steps|] == w'
  }

  /** The run can happen and ends in s: from the empty system, before any breaker has been told anything. */
  ghost predicate CanHappen(cfg: Config, accounts: map<nat, Account>, steps: seq<Step>, s: State) {
    exists logs :: Leads(cfg, World(Initial(accounts), map[]), steps, World(s, logs))
  }

  lemma {:induction false} PlayLeads(cfg: Config, w: World, steps: seq<Step>)
    requires Playable(cfg, w, steps)
    ensures Leads(cfg, w, steps, Play(cfg, w, steps))
    decreases |steps|
  {
    if steps == [] {
      assert IsTrace(cfg, [w], steps);
    } else {
      var w1, rest := Advance(cfg, w, steps[0]), steps[1..];
      PlayLeads(cfg, w1, rest);
      var trace :| IsTrace(cfg, trace, rest) && trace[0] == w1 && trace[|rest|] == Play(cfg, w1, rest);
      TraceCons(cfg, w, steps, trace);
    }
  }

  lemma TraceCons(cfg: Config, w: World, steps: seq<Step>, trace: seq<World>)
    requires steps != [] && IsTrace(cfg, trace, steps[1..]) && trace[0] == Advance(cfg, w, steps[0])
    requires Enabled(cfg, w.state, steps[0]) && Allowed(cfg, w, steps[0])
    ensures IsTrace(cfg, [w] + trace, steps)
  {
    forall k: nat | k < |steps|
      ensures Takes(cfg, [w] + trace, steps, k)
    {
      assert k > 0 ==> Takes(cfg, trace, steps[1..], k - 1);
    }
  }

  lemma LeadsTwo(cfg: Config, w: World, a: Step, b: Step) returns (w': World)
    requires Enabled(cfg, w.state, a) && Allowed(cfg, w, a)
    requires Enabled(cfg, Advance(cfg, w, a).state, b) && Allowed(cfg, Advance(cfg, w, a), b)
    ensures w' == Advance(cfg, Advance(cfg, w, a), b) && Leads(cfg, w, [a, b], w')
  {
    PlayTwo(cfg, w, a, b);
    PlayLeads(cfg, w, [a, b]);
    w' := Play(cfg, w, [a, b]);
  }

  lemma LeadsThen(cfg: Config, a: World, first: seq<Step>, b: World, rest: seq<Step>, c: World)
    requires Leads(cfg, a, first, b) && Leads(cfg, b, rest, c)
    ensures Leads(cfg, a, first + rest, c)
  {
    var s :| IsTrace(cfg, s, first) && s[0] == a && s[|first|] == b;
    var t :| IsTrace(cfg, t, rest) && t[0] == b && t[|rest|] == c;
    var both, steps := s[..|first|] + t, first + rest;
    forall k: nat | k < |steps|
      ensures Takes(cfg, both, steps, k)
    {
      if k < |first| {
        assert Takes(cfg, s, first, k);
      } else {
        assert Takes(cfg, t, rest, k - |first|);
      }
    }
    assert IsTrace(cfg, both, steps);
  }

  /** A trace passes through the states of the run. */
  lemma {:induction false} LeadsIsExec(cfg: Config, w: World, steps: seq<Step>, w': World)
    requires Leads(cfg, w, steps, w')
    ensures w'.state == Exec(cfg, w.state, steps)
    decreases |steps|
  {
    if steps != [] {
      var trace :| IsTrace(cfg, trace, steps) && trace[0] == w && trace[|steps|] == w';
      assert Takes(cfg, trace, steps, 0);
      forall k: nat | k < |steps| - 1
        ensures Takes(cfg, trace[1..], steps[1..], k)
      {
        assert Takes(cfg, trace, steps, k + 1);
      }
      assert IsTrace(cfg, trace[1..], steps[1..]);
      LeadsIsExec(cfg, trace[1], steps[1..], w');
    }
  }

  lemma LeadsThrice(cfg: Config, w0: World, a: seq<Step>, w1: World, b: seq<Step>, w2: World, c: seq<Step>, w3: World)
    requires Leads(cfg, w0, a, w1) && Leads(cfg, w1, b, w2) && Leads(cfg, w2, c, w3)
    ensures Leads(cfg, w0, a + b + c, w3)
  {
    LeadsThen(cfg, w0, a, w1, b, w2);
    LeadsThen(cfg, w0, a + b, w2, c, w3);
  }

  lemma LeadsHappens(cfg: Config, accounts: map<nat, Account>, steps: seq<Step>, w: World)
    requires Leads(cfg, World(Initial(accounts), map[]), steps, w)
    ensures w.state == Exec(cfg, Initial(accounts), steps) && CanHappen(cfg, accounts, steps, w.state)
  {
    LeadsIsExec(cfg, World(Initial(accounts), map[]), steps, w);
    assert w == World(w.state, w.logs);
  }

  /** A breaker rejects nothing once everything it was told of is a timeout ago. */
  lemma OldFailuresAdmit(cfg: Config, past: seq<Event>, now: real)
    requires forall i :: 0 <= i < |past| ==> past[i].at <= now - cfg.recoveryTimeout
    ensures !Rejects(cfg, past, now)
  {
  }

  // ---- Alone, these runs are those of send_document ----

  /** The environment of the run raises at the guard or at the factory exactly where the verdict says so. */
  predicate RaisesAsIn(verdict: Verdict, run: RunInput) {
    run.guardUp == !verdict.GuardRaised? && run.factoryUp == !verdict.FactoryRaised?
  }

  /** Where the guard lets the run of task t of delivery d go. */
  ghost function VerdictIn(cfg: Config, w: World, d: nat, run: RunInput): Verdict
    requires d < |w.state.tables.deliveries|
  {
    VerdictOf(cfg, w.state.tables, w.Past(w.state.tables.deliveries[d].account), d, run)
  }

  /** The step after Load is allowed exactly when the verdict is that of the guard. */
  lemma SecondStepIff(cfg: Config, w: World, t: nat, d: nat, verdict: Verdict, run: RunInput)
    requires QueuedFor(w.state, t, d) && !verdict.NotFound? && RaisesAsIn(verdict, run)
    requires JitterInRange(cfg, w.state.tables.deliveries[d].retryCount, run.jitter)
    requires NotBefore(w.Past(w.state.tables.deliveries[d].account), run.checkedAt) && run.checkedAt <= run.answeredAt
    ensures var step, w1 := AloneSteps(t, verdict, run)[1], w.(state := JustLoaded(w.state, t, d));
      Enabled(cfg, w1.state, step) && (Allowed(cfg, w1, step) <==> verdict == VerdictIn(cfg, w, d, run))
  {
  }

  /** The worlds after Load and one more step. */
  ghost function AfterTwo(cfg: Config, w: World, t: nat, verdict: Verdict, run: RunInput): World
    requires !verdict.NotFound?
  {
    Advance(cfg, Advance(cfg, w, Load(t)), AloneSteps(t, verdict, run)[1])
  }

  lemma FirstTwoSteps(cfg: Config, w: World, t: nat, d: nat, verdict: Verdict, run: RunInput)
    requires QueuedFor(w.state, t, d) && !verdict.NotFound? && RaisesAsIn(verdict, run)
    requires JitterInRange(cfg, w.state.tables.deliveries[d].retryCount, run.jitter)
    requires NotBefore(w.Past(w.state.tables.deliveries[d].account), run.checkedAt) && run.checkedAt <= run.answeredAt
    ensures var first, w2 := AloneSteps(t, verdict, run)[..2], AfterTwo(cfg, w, t, verdict, run);
      var account := w.state.tables.deliveries[d].account;
      && Play(cfg, w, first) == w2
      && (Playable(cfg, w, first) <==> verdict == VerdictIn(cfg, w, d, run))
      && w2.Past(account)
         == w.Past(account) + (if verdict.Inactive? || verdict.GuardRaised? then [] else [Checked(run.checkedAt)])
      && (forall a: nat :: a != account ==> w2.Past(a) == w.Past(a))
  {
    var steps := AloneSteps(t, verdict, run);
    assert steps[..2] == [Load(t), steps[1]];
    PlayTwo(cfg, w, Load(t), steps[1]);
    ReachLoaded(cfg, w.state, t, d);
    SecondStepIff(cfg, w, t, d, verdict, run);
  }

  lemma RestOfAnswered(cfg: Config, w: World, t: nat, d: nat, run: RunInput)
    requires QueuedFor(w.state, t, d)
    requires JitterInRange(cfg, w.state.tables.deliveries[d].retryCount, run.jitter)
    requires NotBefore(w.Past(w.state.tables.deliveries[d].account), run.answeredAt)
    ensures var w2 := w.(state := JustSending(w.state, t, d, run.checkedAt));
      var rest := [AnswerCall(t, run.answer), Finish(t, run.redisUp, run.answeredAt, run.jitter)];
      var account := w.state.tables.deliveries[d].account;
      && Playable(cfg, w2, rest)
      && Play(cfg, w2, rest).Past(account) == w.Past(account) + AnswerReports(run)
      && (forall a: nat :: a != account ==> Play(cfg, w2, rest).Past(a) == w.Past(a))
  {
    var w2 := w.(state := JustSending(w.state, t, d, run.checkedAt));
    ReachReplied(cfg, w.state, t, d, run.checkedAt, run.answer);
    PlayTwo(cfg, w2, AnswerCall(t, run.answer), Finish(t, run.redisUp, run.answeredAt, run.jitter));
  }

  /** What is left after two steps is always allowed. */
  lemma RestPlays(cfg: Config, w: World, t: nat, d: nat, verdict: Verdict, run: RunInput)
    requires QueuedFor(w.state, t, d) && !verdict.NotFound? && RaisesAsIn(verdict, run)
    requires JitterInRange(cfg, w.state.tables.deliveries[d].retryCount, run.jitter)
    requires NotBefore(w.Past(w.state.tables.deliveries[d].account), run.checkedAt) && run.checkedAt <= run.answeredAt
    ensures var rest, w2 := AloneSteps(t, verdict, run)[2..], AfterTwo(cfg, w, t, verdict, run);
      var account := w.state.tables.deliveries[d].account;
      && Playable(cfg, w2, rest)
      && Play(cfg, w2, rest).Past(account)
         == w2.Past(account) + (if verdict.Answered? then AnswerReports(run) else [])
      && (forall a: nat :: a != account ==> Play(cfg, w2, rest).Past(a) == w2.Past(a))
  {
    var rest, w2 := AloneSteps(t, verdict, run)[2..], AfterTwo(cfg, w, t, verdict, run);
    ReachLoaded(cfg, w.state, t, d);
    if verdict.Answered? {
      ReachSending(cfg, w.state, t, d, run.checkedAt);
      assert rest == [AnswerCall(t, run.answer), Finish(t, run.redisUp, run.answeredAt, run.jitter)];
      RestOfAnswered(cfg, w.(logs := w2.logs), t, d, run);
    } else if verdict.FactoryRaised? {
      ReachSending(cfg, w.state, t, d, run.checkedAt);
      AbortPlays(cfg, w2, t);
    }
  }

  lemma AbortPlays(cfg: Config, w: World, t: nat)
    requires IsCalling(w.state, t)
    ensures Playable(cfg, w, [Abort(t)]) && Play(cfg, w, [Abort(t)]).logs == w.logs
  {
    PlayOne(cfg, w, Abort(t));
  }

  lemma ReportsInTwo(past: seq<Event>, verdict: Verdict, run: RunInput)
    requires !verdict.NotFound?
    ensures past + (if verdict.Inactive? || verdict.GuardRaised? then [] else [Checked(run.checkedAt)])
        + (if verdict.Answered? then AnswerReports(run) else [])
      == past + Reports(verdict, run)
  {
    var c := [Checked(run.checkedAt)];
    assert (past + c) + AnswerReports(run) == past + (c + AnswerReports(run));
  }

  /**
   * One task alone: a run to an end is allowed exactly if SendDocument's run would end there, and it
   * tells the breaker exactly what SendDocument reports.
   */
  lemma AllowedAloneIff(cfg: Config, w: World, t: nat, d: nat, verdict: Verdict, run: RunInput)
    requires QueuedFor(w.state, t, d) && !verdict.NotFound? && RaisesAsIn(verdict, run)
    requires JitterInRange(cfg, w.state.tables.deliveries[d].retryCount, run.jitter)
    requires NotBefore(w.Past(w.state.tables.deliveries[d].account), run.checkedAt) && run.checkedAt <= run.answeredAt
    ensures var steps, account := AloneSteps(t, verdict, run), w.state.tables.deliveries[d].account;
      var w' := Play(cfg, w, steps);
      && (Playable(cfg, w, steps) <==> verdict == VerdictIn(cfg, w, d, run))
      && w'.Past(account) == w.Past(account) + Reports(verdict, run)
      && (forall a: nat :: a != account ==> w'.Past(a) == w.Past(a))
  {
    var steps, account := AloneSteps(t, verdict, run), w.state.tables.deliveries[d].account;
    assert steps == steps[..2] + steps[2..];
    FirstTwoSteps(cfg, w, t, d, verdict, run);
    RestPlays(cfg, w, t, d, verdict, run);
    PlaySplit(cfg, w, steps[..2], steps[2..]);
    ReportsInTwo(w.Past(account), verdict, run);
  }
}
