/** Shared vocabulary: options, counting, the service settings and the delivery statuses. */
module Core {

  datatype Option<+T> = None | Some(value: T)

  /** The reliability settings of src/core/config.py (lines 83-88). */
  datatype Settings = Settings(
    maxAttempts: int,
    baseSeconds: real,
    maxSeconds: real,
    failureThreshold: int,
    recoveryTimeout: real,
    halfOpenMax: int)
  {
    predicate Valid() {
      && baseSeconds >= 0.0
      && maxSeconds >= 0.0
      && failureThreshold >= 1
      && recoveryTimeout >= 0.0
      && halfOpenMax >= 1
    }
  }

  const DEFAULTS := Settings(5, 10.0, 900.0, 5, 60.0, 2)

  type Config = s: Settings | s.Valid() witness DEFAULTS

  /** UnifiedDocumentStatus. */
  datatype Status =
    | PENDING | SENDING | SENT | DELIVERED | SIGNED
    | REJECTED | CANCELLED | FAILED | UNKNOWN
  {
    predicate IsTerminal() {
      this in {SIGNED, REJECTED, CANCELLED, FAILED}
    }
  }

  /** How many elements of `s` satisfy `p`. */
  function Count<T>(s: seq<T>, p: T -> bool): nat {
    if s == [] then 0
    else Count(s[..|s| - 1], p) + if p(s[|s| - 1]) then 1 else 0
  }

  lemma CountAppend<T>(s: seq<T>, x: T, p: T -> bool)
    ensures Count(s + [x], p) == Count(s, p) + if p(x) then 1 else 0
  {
    assert (s + [x])[..|s|] == s;
  }

  lemma {:induction false} CountUpdate<T>(s: seq<T>, i: nat, x: T, p: T -> bool)
    requires i < |s|
    ensures Count(s[i := x], p) + (if p(s[i]) then 1 else 0) == Count(s, p) + if p(x) then 1 else 0
  {
    var n := |s| - 1;
    if i == n {
      assert s[i := x][..n] == s[..n];
    } else {
      assert s[i := x][..n] == s[..n][i := x];
      CountUpdate(s[..n], i, x, p);
    }
  }
}
