/**
 * src/infrastructure/reliability/circuit_breaker.py for one caller at a time.
 *
 * `Apply` is what one call does to the account's Redis hash. Everything the module proves is stated
 * over the list of calls made so far (the history), without looking at the hash.
 */
module Breaker {
  import opened Core

  datatype CircuitState = CLOSED | OPEN | HALF_OPEN

  /** The Redis hash of one account; a missing field reads as its value in EMPTY_HASH. */
  datatype Hash = Hash(state: CircuitState, failures: int, halfOpenSuccesses: int, openedAt: real)

  const EMPTY_HASH := Hash(CLOSED, 0, 0, 0.0)

  /** A call and its time: get_state or guard, record_success, record_failure. */
  datatype Event = Checked(at: real) | Succeeded(at: real) | Failed(at: real)

  predicate Expired(cfg: Config, h: Hash, now: real) {
    h.state == OPEN && now - h.openedAt >= cfg.recoveryTimeout
  }

  function Observe(cfg: Config, h: Hash, now: real): Hash {
    if Expired(cfg, h, now) then h.(state := HALF_OPEN) else h
  }

  /** `_transition`. */
  function Transition(h: Hash, state: CircuitState, now: real): Hash {
    match state
    case OPEN => h.(state := OPEN, openedAt := now, failures := 0)
    case CLOSED => h.(state := CLOSED, failures := 0, halfOpenSuccesses := 0)
    case HALF_OPEN => h.(state := HALF_OPEN)
  }

  function Apply(cfg: Config, h: Hash, e: Event): Hash {
    match e
    case Checked(now) => Observe(cfg, h, now)
    case Succeeded(now) =>
      var seen := Observe(cfg, h, now);
      (match seen.state
       case HALF_OPEN =>
         var counted := seen.(halfOpenSuccesses := seen.halfOpenSuccesses + 1);
         if counted.halfOpenSuccesses >= cfg.halfOpenMax then Transition(counted, CLOSED, now) else counted
       case CLOSED => seen.(failures := 0)
       case OPEN => seen)
    case Failed(now) =>
      var counted := h.(failures := h.failures + 1, state := CLOSED);
      if counted.failures >= cfg.failureThreshold then Transition(counted, OPEN, now) else counted
  }

  /** The hash after a history that started from no hash at all. */
  function Replay(cfg: Config, es: seq<Event>): Hash {
    if es == [] then EMPTY_HASH else Apply(cfg, Replay(cfg, es[..|es| - 1]), es[|es| - 1])
  }

  lemma ReplaySnoc(cfg: Config, es: seq<Event>, e: Event)
    ensures Replay(cfg, es + [e]) == Apply(cfg, Replay(cfg, es), e)
  {
    assert (es + [e])[..|es|] == es;
  }

  /** The clock never runs backwards. */
  predicate Ordered(es: seq<Event>) {
    forall i, j :: 0 <= i < j < |es| ==> es[i].at <= es[j].at
  }

  predicate NotBefore(es: seq<Event>, now: real) {
    es == [] || es[|es| - 1].at <= now
  }

  // ---- What the history alone says ----

  /** Consecutive failures at the end of the history, no success between them. */
  function Run(es: seq<Event>): nat {
    if es == [] then 0
    else match es[|es| - 1]
      case Failed(_) => Run(es[..|es| - 1]) + 1
      case Checked(_) => Run(es[..|es| - 1])
      case Succeeded(_) => 0
  }

  /** Event i is a failure that ended a run whose length is a multiple of the threshold. */
  predicate TripsAt(cfg: Config, es: seq<Event>, i: nat) {
    i < |es| && es[i].Failed? && Run(es[..i + 1]) % cfg.failureThreshold == 0
  }

  predicate LatestFailure(es: seq<Event>, i: nat) {
    i < |es| && es[i].Failed? && forall j :: i < j < |es| ==> !es[j].Failed?
  }

  /** The rule a caller sees: reject while the latest failure is a trip younger than the timeout. */
  ghost predicate Rejects(cfg: Config, es: seq<Event>, now: real) {
    exists i: nat :: LatestFailure(es, i) && TripsAt(cfg, es, i) && now - es[i].at < cfg.recoveryTimeout
  }

  lemma TripsAtPrefix(cfg: Config, es: seq<Event>, n: nat)
    requires n <= |es|
    ensures forall i: nat :: i < n ==> (TripsAt(cfg, es[..n], i) <==> TripsAt(cfg, es, i))
  {
    forall i: nat | i < n
      ensures TripsAt(cfg, es[..n], i) <==> TripsAt(cfg, es, i)
    {
      assert es[..n][..i + 1] == es[..i + 1];
    }
  }

  /** The index of the latest failure when that failure tripped the breaker. */
  function LastTrip(cfg: Config, es: seq<Event>): (r: Option<nat>)
    ensures r.Some? ==> LatestFailure(es, r.value) && TripsAt(cfg, es, r.value)
    ensures r.None? ==> forall i: nat :: !(LatestFailure(es, i) && TripsAt(cfg, es, i))
  {
    if es == [] then None
    else
      var n := |es| - 1;
      assert es[..n + 1] == es;
      if es[n].Failed? then
        if Run(es) % cfg.failureThreshold == 0 then Some(n) else None
      else
        TripsAtPrefix(cfg, es, n);
        LastTrip(cfg, es[..n])
  }

  /** How many successes ever arrived while the circuit was half open. */
  function HalfOpens(cfg: Config, es: seq<Event>): nat
    decreases |es|, 0
  {
    if es == [] then 0
    else
      var earlier, e := es[..|es| - 1], es[|es| - 1];
      HalfOpens(cfg, earlier) + if e.Succeeded? && StateAt(cfg, earlier, e.at) == HALF_OPEN then 1 else 0
  }

  /** Some half-open success since the trip at i completed a batch of halfOpenMax. */
  predicate ClosedSince(cfg: Config, es: seq<Event>, i: nat)
    requires i < |es|
    decreases |es|, 1
  {
    HalfOpens(cfg, es) / cfg.halfOpenMax > HalfOpens(cfg, es[..i + 1]) / cfg.halfOpenMax
  }

  /** The circuit state a caller sees at time `now`, read off the history. */
  function StateAt(cfg: Config, es: seq<Event>, now: real): CircuitState
    decreases |es|, 2
  {
    match LastTrip(cfg, es)
    case None => CLOSED
    case Some(i) =>
      if ClosedSince(cfg, es, i) then CLOSED
      else if now - es[i].at >= cfg.recoveryTimeout then HALF_OPEN
      else OPEN
  }

  /** All trips of the history, and all its failures. */
  function Trips(cfg: Config, es: seq<Event>): nat {
    if es == [] then 0
    else Trips(cfg, es[..|es| - 1]) + if TripsAt(cfg, es, |es| - 1) then 1 else 0
  }

  function Failures(es: seq<Event>): nat {
    if es == [] then 0
    else Failures(es[..|es| - 1]) + if es[|es| - 1].Failed? then 1 else 0
  }

  // ---- The stored hash is determined by the history ----

  ghost predicate Refines(cfg: Config, h: Hash, es: seq<Event>) {
    && h.failures == Run(es) % cfg.failureThreshold
    && h.halfOpenSuccesses == HalfOpens(cfg, es) % cfg.halfOpenMax
    && match LastTrip(cfg, es)
       case None => h.state == CLOSED
       case Some(i) =>
         && h.failures == 0
         && h.openedAt == es[i].at
         && (h.state == CLOSED <==> ClosedSince(cfg, es, i))
         && (h.state != OPEN ==> es[|es| - 1].at - es[i].at >= cfg.recoveryTimeout)
  }

  lemma ModuloStep(n: nat, m: int)
    requires m >= 1
    ensures (n + 1) % m == if n % m == m - 1 then 0 else n % m + 1
    ensures (n + 1) / m == if n % m == m - 1 then n / m + 1 else n / m
  {
    var q, r := n / m, n % m;
    assert n == q * m + r;
    if r == m - 1 {
      assert n + 1 == (q + 1) * m by {
        assert (q + 1) * m == q * m + m;
      }
      QuotientIs(n + 1, q + 1, 0, m);
    } else {
      QuotientIs(n + 1, q, r + 1, m);
    }
  }

  lemma QuotientIs(n: int, q: int, r: int, m: int)
    requires 0 <= r < m
    requires n == q * m + r
    ensures n / m == q && n % m == r
  {
    var d := n / m - q;
    assert n == (n / m) * m + n % m;
    assert d * m == r - n % m by {
      assert (n / m) * m - q * m == d * m;
    }
    assert d >= 1 ==> d * m >= m;
    assert d <= -1 ==> d * m <= -m;
  }

  lemma FailureKeepsRefinement(cfg: Config, h: Hash, es: seq<Event>, e: Event)
    requires e.Failed? && Refines(cfg, h, es)
    ensures Refines(cfg, Apply(cfg, h, e), es + [e])
  {
    var es' := es + [e];
    assert es'[..|es|] == es && es'[..|es| + 1] == es';
    ModuloStep(Run(es), cfg.failureThreshold);
    assert Run(es') == Run(es) + 1;
    assert HalfOpens(cfg, es') == HalfOpens(cfg, es);
  }

  lemma OtherKeepsTrip(cfg: Config, es: seq<Event>, e: Event)
    requires !e.Failed?
    ensures LastTrip(cfg, es + [e]) == LastTrip(cfg, es)
    ensures var r := LastTrip(cfg, es); r.Some? ==> (es + [e])[..r.value + 1] == es[..r.value + 1]
    ensures var r := LastTrip(cfg, es); r.Some? && HalfOpens(cfg, es + [e]) == HalfOpens(cfg, es) ==>
      (ClosedSince(cfg, es + [e], r.value) <==> ClosedSince(cfg, es, r.value))
  {
    assert (es + [e])[..|es|] == es;
  }

  lemma CheckKeepsRefinement(cfg: Config, h: Hash, es: seq<Event>, e: Event)
    requires e.Checked? && Refines(cfg, h, es) && Ordered(es) && NotBefore(es, e.at)
    ensures Refines(cfg, Apply(cfg, h, e), es + [e])
  {
    assert (es + [e])[..|es|] == es;
    OtherKeepsTrip(cfg, es, e);
    assert HalfOpens(cfg, es + [e]) == HalfOpens(cfg, es);
  }

  lemma SuccessKeepsRefinement(cfg: Config, h: Hash, es: seq<Event>, e: Event)
    requires e.Succeeded? && Refines(cfg, h, es) && Ordered(es) && NotBefore(es, e.at)
    ensures Refines(cfg, Apply(cfg, h, e), es + [e])
  {
    var es' := es + [e];
    assert es'[..|es|] == es;
    OtherKeepsTrip(cfg, es, e);
    SeenState(cfg, h, es, e.at);
    assert Run(es') == 0;
    assert 0 % cfg.failureThreshold == 0;
    ModuloStep(HalfOpens(cfg, es), cfg.halfOpenMax);
    if LastTrip(cfg, es).Some? && StateAt(cfg, es, e.at) == HALF_OPEN {
      HalfOpenBatchesGrow(cfg, es, LastTrip(cfg, es).value);
    }
  }

  /** Half-open successes only accumulate. */
  lemma {:induction false} HalfOpenBatchesGrow(cfg: Config, es: seq<Event>, i: nat)
    requires i < |es|
    ensures HalfOpens(cfg, es) >= HalfOpens(cfg, es[..i + 1])
    ensures HalfOpens(cfg, es) / cfg.halfOpenMax >= HalfOpens(cfg, es[..i + 1]) / cfg.halfOpenMax
  {
    if i == |es| - 1 {
      assert es[..i + 1] == es;
    } else {
      var earlier := es[..|es| - 1];
      assert earlier[..i + 1] == es[..i + 1];
      HalfOpenBatchesGrow(cfg, earlier, i);
      ModuloStep(HalfOpens(cfg, earlier), cfg.halfOpenMax);
    }
  }

  lemma SeenState(cfg: Config, h: Hash, es: seq<Event>, now: real)
    requires Refines(cfg, h, es) && NotBefore(es, now)
    ensures Observe(cfg, h, now).state == StateAt(cfg, es, now)
  {
  }

  lemma {:induction false} HashFollowsHistory(cfg: Config, es: seq<Event>)
    requires Ordered(es)
    ensures Refines(cfg, Replay(cfg, es), es)
  {
    if es != [] {
      var earlier, e := es[..|es| - 1], es[|es| - 1];
      assert es == earlier + [e];
      HashFollowsHistory(cfg, earlier);
      match e {
        case Checked(_) => CheckKeepsRefinement(cfg, Replay(cfg, earlier), earlier, e);
        case Succeeded(_) => SuccessKeepsRefinement(cfg, Replay(cfg, earlier), earlier, e);
        case Failed(_) => FailureKeepsRefinement(cfg, Replay(cfg, earlier), earlier, e);
      }
    }
  }

  // ---- Main results ----

  /** get_state answers what the history says; guard rejects exactly by the trip rule. */
  lemma StateRefinesHistory(cfg: Config, es: seq<Event>, now: real)
    requires Ordered(es) && NotBefore(es, now)
    ensures Observe(cfg, Replay(cfg, es), now).state == StateAt(cfg, es, now)
    ensures Observe(cfg, Replay(cfg, es), now).state == OPEN <==> Rejects(cfg, es, now)
  {
    HashFollowsHistory(cfg, es);
    SeenState(cfg, Replay(cfg, es), es, now);
  }

  /** Closed form of the failure counter, and the price of a trip. */
  lemma FailureCounterClosedForm(cfg: Config, es: seq<Event>)
    requires Ordered(es)
    ensures var h := Replay(cfg, es);
      && h.failures == Run(es) % cfg.failureThreshold
      && (h.state != CLOSED ==> h.failures == 0)
      && Trips(cfg, es) * cfg.failureThreshold + h.failures <= Failures(es)
  {
    HashFollowsHistory(cfg, es);
    TripsCostThreshold(cfg, es);
  }

  lemma {:induction false} TripsCostThreshold(cfg: Config, es: seq<Event>)
    ensures Trips(cfg, es) * cfg.failureThreshold + Run(es) % cfg.failureThreshold <= Failures(es)
  {
    if es == [] {
      assert 0 % cfg.failureThreshold == 0;
    } else {
      var n := |es| - 1;
      assert es[..n + 1] == es;
      TripsCostThreshold(cfg, es[..n]);
      ModuloStep(Run(es[..n]), cfg.failureThreshold);
      var k := Trips(cfg, es[..n]);
      assert (k + 1) * cfg.failureThreshold == k * cfg.failureThreshold + cfg.failureThreshold;
      assert 0 % cfg.failureThreshold == 0;
    }
  }

  /** The half-open counter is the count of all half-open successes, modulo the batch size. */
  lemma HalfOpenCounterClosedForm(cfg: Config, es: seq<Event>)
    requires Ordered(es)
    ensures Replay(cfg, es).halfOpenSuccesses == HalfOpens(cfg, es) % cfg.halfOpenMax
  {
    HashFollowsHistory(cfg, es);
  }

  /** `times` successes in a row, the i-th at times[i]. */
  function Successes(cfg: Config, h: Hash, times: seq<real>): Hash
    decreases |times|
  {
    if times == [] then h else Successes(cfg, Apply(cfg, h, Succeeded(times[0])), times[1..])
  }

  /**
   * From a tripped circuit past its timeout, n successes close it exactly when they fill up the
   * batch that earlier half-open successes may already have started.
   */
  lemma {:induction false} RecoveryExactly(cfg: Config, h: Hash, times: seq<real>)
    requires h.state != CLOSED && h.failures == 0 && 0 <= h.halfOpenSuccesses < cfg.halfOpenMax
    requires forall i :: 0 <= i < |times| ==> times[i] - h.openedAt >= cfg.recoveryTimeout
    ensures Successes(cfg, h, times).state == CLOSED <==> |times| >= cfg.halfOpenMax - h.halfOpenSuccesses
    ensures Successes(cfg, h, times).failures == 0
    decreases |times|
  {
    if times != [] {
      var h' := Apply(cfg, h, Succeeded(times[0]));
      if h'.state == CLOSED {
        StaysClosed(cfg, h', times[1..]);
      } else {
        RecoveryExactly(cfg, h', times[1..]);
      }
    }
  }

  lemma {:induction false} StaysClosed(cfg: Config, h: Hash, times: seq<real>)
    requires h.state == CLOSED
    ensures Successes(cfg, h, times).state == CLOSED
    ensures times != [] || h.failures == 0 ==> Successes(cfg, h, times).failures == 0
    decreases |times|
  {
    if times != [] {
      StaysClosed(cfg, Apply(cfg, h, Succeeded(times[0])), times[1..]);
    }
  }

  /** From any reachable state past the timeout, halfOpenMax successes in a row end CLOSED with no failures. */
  lemma Recovery(cfg: Config, es: seq<Event>, times: seq<real>)
    requires Ordered(es) && |times| >= cfg.halfOpenMax
    requires var h := Replay(cfg, es);
      forall i :: 0 <= i < |times| ==> times[i] - h.openedAt >= cfg.recoveryTimeout
    ensures var after := Successes(cfg, Replay(cfg, es), times); after.state == CLOSED && after.failures == 0
  {
    HashFollowsHistory(cfg, es);
    var h := Replay(cfg, es);
    if h.state == CLOSED {
      StaysClosed(cfg, h, times);
    } else {
      RecoveryExactly(cfg, h, times);
    }
  }

  // ---- The class ----

  /** One Redis hash per account. The ghost history records the calls made for each account. */
  class CircuitBreaker {
    const cfg: Config
    var hashes: map<nat, Hash>
    ghost var history: map<nat, seq<Event>>

    constructor (cfg: Config)
      ensures Valid() && this.cfg == cfg
      ensures forall a: nat :: Past(a) == []
    {
      this.cfg := cfg;
      hashes := map[];
      history := map[];
    }

    function Lookup(account: nat): Hash
      reads this
    {
      if account in hashes then hashes[account] else EMPTY_HASH
    }

    ghost function Past(account: nat): seq<Event>
      reads this
    {
      if account in history then history[account] else []
    }

    /** The stored hash of `account` is the one its history leads to. */
    ghost predicate InStep(account: nat)
      reads this
    {
      Ordered(Past(account)) && Lookup(account) == Replay(cfg, Past(account))
    }

    ghost predicate Valid()
      reads this
    {
      forall a: nat :: InStep(a)
    }

    /** A call for `account`: its history grows by one event, other accounts keep history and hash. */
    twostate predicate Logs(account: nat, e: Event)
      reads this
    {
      && Past(account) == old(Past(account)) + [e]
      && forall a: nat :: a != account ==> Past(a) == old(Past(a)) && Lookup(a) == old(Lookup(a))
    }

    ghost method Log(account: nat, e: Event)
      requires Ordered(Past(account)) && NotBefore(Past(account), e.at)
      requires Lookup(account) == Apply(cfg, Replay(cfg, Past(account)), e)
      requires forall a: nat :: a != account ==> InStep(a)
      modifies this`history
      ensures Valid()
      ensures Past(account) == old(Past(account)) + [e]
      ensures forall a: nat :: a != account ==> Past(a) == old(Past(a))
    {
      ReplaySnoc(cfg, Past(account), e);
      history := history[account := Past(account) + [e]];
      forall a: nat
        ensures InStep(a)
      {
        if a != account {
          assert old(InStep(a)) && Past(a) == old(Past(a));
        }
      }
    }

    method TransitionTo(account: nat, state: CircuitState, now: real)
      modifies this`hashes
      ensures hashes == old(hashes)[account := Transition(old(Lookup(account)), state, now)]
    {
      var h := Lookup(account).(state := state);
      if state == OPEN {
        h := h.(openedAt := now, failures := 0);
      }
      if state == CLOSED {
        h := h.(failures := 0, halfOpenSuccesses := 0);
      }
      hashes := hashes[account := h];
    }

    /** The Redis traffic of get_state. */
    method ReadState(account: nat, now: real) returns (state: CircuitState)
      modifies this`hashes
      ensures Lookup(account) == Observe(cfg, old(Lookup(account)), now)
      ensures state == Lookup(account).state
      ensures forall a: nat :: a != account ==> Lookup(a) == old(Lookup(a))
    {
      var h := Lookup(account);
      state := h.state;
      if state == OPEN && now - h.openedAt >= cfg.recoveryTimeout {
        TransitionTo(account, HALF_OPEN, now);
        state := HALF_OPEN;
      }
    }

    method GetState(account: nat, now: real) returns (state: CircuitState)
      requires Valid() && NotBefore(Past(account), now)
      modifies this
      ensures Valid() && Logs(account, Checked(now))
      ensures state == StateAt(cfg, old(Past(account)), now)
      ensures state == OPEN <==> Rejects(cfg, old(Past(account)), now)
    {
      assert InStep(account);
      StateRefinesHistory(cfg, Past(account), now);
      state := ReadState(account, now);
      assert forall a: nat :: a != account ==> old(InStep(a)) ==> InStep(a);
      Log(account, Checked(now));
    }

    method RecordSuccess(account: nat, now: real)
      requires Valid() && NotBefore(Past(account), now)
      modifies this
      ensures Valid() && Logs(account, Succeeded(now))
    {
      assert InStep(account);
      var state := ReadState(account, now);
      if state == HALF_OPEN {
        var halfOpenCount := Lookup(account).halfOpenSuccesses + 1;
        hashes := hashes[account := Lookup(account).(halfOpenSuccesses := halfOpenCount)];
        if halfOpenCount >= cfg.halfOpenMax {
          TransitionTo(account, CLOSED, now);
        }
      } else if state == CLOSED {
        hashes := hashes[account := Lookup(account).(failures := 0)];
      }
      assert forall a: nat :: a != account ==> old(InStep(a)) ==> InStep(a);
      Log(account, Succeeded(now));
    }

    method RecordFailure(account: nat, now: real)
      requires Valid() && NotBefore(Past(account), now)
      modifies this
      ensures Valid() && Logs(account, Failed(now))
    {
      assert InStep(account);
      var failures := Lookup(account).failures + 1;
      hashes := hashes[account := Lookup(account).(failures := failures, state := CLOSED)];
      if failures >= cfg.failureThreshold {
        TransitionTo(account, OPEN, now);
      }
      assert forall a: nat :: a != account ==> old(InStep(a)) ==> InStep(a);
      Log(account, Failed(now));
    }

    /** CircuitOpenError is the answer `rejected`. */
    method Guard(account: nat, now: real) returns (rejected: bool)
      requires Valid() && NotBefore(Past(account), now)
      modifies this
      ensures Valid() && Logs(account, Checked(now))
      ensures rejected <==> Rejects(cfg, old(Past(account)), now)
    {
      var state := GetState(account, now);
      rejected := state == OPEN;
    }
  }
}
