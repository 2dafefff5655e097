/** The operation status table and the retry delay: internal/domain/state.go. */
module Domain {

  datatype Option<+T> = None | Some(value: T)

  lemma SubsetSize<T>(a: set<T>, b: set<T>)
    requires a <= b
    ensures |a| <= |b|
  {
    assert b == a + (b - a);
  }

  datatype Status =
    | Pending
    | Queued
    | Running
    | Succeeded
    | Failed
    | Retrying
    | DeadLettered
    | Cancelled

  const TRANSITIONS: map<Status, set<Status>> := map[
    Pending := {Queued, Cancelled},
    Queued := {Running, Cancelled},
    Running := {Succeeded, Failed, Retrying, DeadLettered, Cancelled},
    Failed := {Retrying, DeadLettered, Cancelled},
    Retrying := {Queued, Running, DeadLettered, Cancelled}
  ]

  predicate CanTransition(from: Status, to: Status) {
    from in TRANSITIONS && to in TRANSITIONS[from]
  }

  predicate IsTerminal(status: Status) {
    status == Succeeded || status == DeadLettered || status == Cancelled
  }

  /** The two descriptions of "final" agree: the switch in IsTerminal and the missing rows of the table. */
  lemma TerminalExactlyWithoutExit(status: Status)
    ensures IsTerminal(status) <==> forall to :: !CanTransition(status, to)
  {
    if !IsTerminal(status) {
      assert CanTransition(status, Cancelled);
    }
  }

  /** The table column the poll loop consults is the SQL predicate of the claim statement. */
  lemma ClaimableExactly(status: Status)
    ensures CanTransition(status, Running) <==> status in {Queued, Retrying}
  {
    match status
    case Pending => case Queued => case Running => case Succeeded =>
    case Failed => case Retrying => case DeadLettered => case Cancelled =>
  }

  function Pow2(n: nat): (p: nat)
    ensures p >= 1
  {
    if n == 0 then 1 else 2 * Pow2(n - 1)
  }

  /** Seconds before attempt number `attempt` is retried. */
  function Delay(attempt: int): nat {
    if attempt < 1 then 2
    else if attempt > 6 then 64
    else Pow2(attempt)
  }

  method RetryDelay(attempt: int) returns (seconds: int)
    ensures seconds == Delay(attempt)
    ensures 2 <= seconds <= 64
  {
    var a := attempt;
    if a < 1 {
      a := 1;
    }
    if a > 6 {
      a := 6;
    }
    seconds := 1;
    for k := 0 to a
      invariant seconds == Pow2(k)
    {
      seconds := seconds * 2;
    }
    DelayRange(attempt);
  }

  lemma Pow2Values()
    ensures Pow2(1) == 2 && Pow2(2) == 4 && Pow2(3) == 8
    ensures Pow2(4) == 16 && Pow2(5) == 32 && Pow2(6) == 64
  {
    assert Pow2(3) == 2 * Pow2(2);
    assert Pow2(5) == 2 * Pow2(4);
  }

  lemma DelayRange(attempt: int)
    ensures 2 <= Delay(attempt) <= 64
  {
    Pow2Values();
  }

  lemma DelayMonotone(a: int, b: int)
    requires a <= b
    ensures Delay(a) <= Delay(b)
  {
    Pow2Values();
    if 1 <= a && b <= 6 {
      Pow2Monotone(a, b);
    }
  }

  lemma {:induction false} Pow2Monotone(a: nat, b: nat)
    requires a <= b
    ensures Pow2(a) <= Pow2(b)
  {
    if a < b {
      Pow2Monotone(a, b - 1);
    }
  }

  /** Total back-off scheduled by the retries that follow attempts 1..n. */
  function DelaySum(n: nat): nat {
    if n == 0 then 0 else DelaySum(n - 1) + Delay(n)
  }

  lemma {:induction false} DelaySumClosedForm(n: nat)
    ensures n <= 6 ==> DelaySum(n) == Pow2(n + 1) - 2
    ensures n >= 6 ==> DelaySum(n) == 126 + 64 * (n - 6)
  {
    Pow2Values();
    if n > 0 {
      DelaySumClosedForm(n - 1);
      assert n == 6 ==> Pow2(7) == 2 * Pow2(6);
    }
  }

  /** Back-off of a run whose k-th close was a failure report (`reported[k]`) or a lease recovery of two seconds. */
  function MixedSum(reported: seq<bool>): nat {
    if reported == [] then 0
    else
      MixedSum(reported[..|reported| - 1])
      + if reported[|reported| - 1] then Delay(|reported|) else 2
  }

  lemma {:induction false} MixedSumBounds(reported: seq<bool>)
    ensures 2 * |reported| <= MixedSum(reported) <= DelaySum(|reported|)
  {
    if reported != [] {
      MixedSumBounds(reported[..|reported| - 1]);
      DelayRange(|reported|);
    }
  }
}
