/**
 The strings behind event keys and workflow ids. The machine uses structured keys; here they are shown to
 stand for distinct strings as long as operation ids (uuids) contain no colon.
 */
module Keys {
  import opened Tables

  function Digit(d: nat): char
    requires d < 10
  {
    "0123456789"[d]
  }

  function Digits(n: nat): string {
    if n < 10 then [Digit(n)] else Digits(n / 10) + [Digit(n % 10)]
  }

  /** Go's %d. */
  function Decimal(n: int): string {
    if n < 0 then "-" + Digits(-n) else Digits(n)
  }

  predicate Plain(s: string) {
    ':' !in s
  }

  function KindName(kind: EventKind): string {
    match kind
    case SucceededEvent => "operation.succeeded"
    case FailedEvent => "operation.failed"
    case DeadLetteredEvent => "operation.dead_lettered"
  }

  /** "%s:operation.<kind>:%d" */
  function RenderEvent(k: EventKey): string {
    k.op + (":" + (KindName(k.kind) + (":" + Decimal(k.attempt))))
  }

  function RenderFlow(f: FlowId): string {
    match f
    case OperationFlow(op) => "operation" + (":" + op)
    case RetryFlow(op, attempt) => "retry" + (":" + (op + (":" + Decimal(attempt))))
    case RecoveryFlow(op, attempt) => "lease-recovery" + (":" + (op + (":" + Decimal(attempt))))
    case RedriveFlow(op, nonce) => "redrive" + (":" + (op + (":" + nonce)))
  }

  // ----- Both directions of reading them back -----

  lemma {:induction false} DigitsShape(n: nat)
    ensures Digits(n) != [] && Digits(n)[0] != '-'
    ensures |Digits(n)| == 1 <==> n < 10
  {
    if n >= 10 {
      DigitsShape(n / 10);
    }
  }

  lemma DigitInjective(c: nat, d: nat)
    requires c < 10 && d < 10 && Digit(c) == Digit(d)
    ensures c == d
  {
  }

  lemma LastDigit(s: string, t: string, c: char, d: char)
    requires s + [c] == t + [d]
    ensures s == t && c == d
  {
    assert s == (s + [c])[..|s|] && t == (t + [d])[..|t|];
    assert (s + [c])[|s|] == c && (t + [d])[|t|] == d;
  }

  lemma {:induction false} DigitsInjective(m: nat, n: nat)
    requires Digits(m) == Digits(n)
    ensures m == n
  {
    DigitsShape(m);
    DigitsShape(n);
    if m < 10 {
      DigitInjective(m, n);
    } else {
      LastDigit(Digits(m / 10), Digits(n / 10), Digit(m % 10), Digit(n % 10));
      DigitsInjective(m / 10, n / 10);
      DigitInjective(m % 10, n % 10);
    }
  }

  lemma DecimalInjective(m: int, n: int)
    requires Decimal(m) == Decimal(n)
    ensures m == n
  {
    var i, j := if m < 0 then -m else m, if n < 0 then -n else n;
    DigitsShape(i);
    DigitsShape(j);
    assert Decimal(m)[0] == Decimal(n)[0];
    if m < 0 {
      assert Digits(i) == Decimal(m)[1..] && Digits(j) == Decimal(n)[1..];
    }
    DigitsInjective(i, j);
  }

  /** The first colon tells where a plain prefix ends. */
  lemma SplitAtColon(a: string, x: string, b: string, y: string)
    requires Plain(a) && Plain(b) && a + (":" + x) == b + (":" + y)
    ensures a == b && x == y
  {
    var s, t := a + (":" + x), b + (":" + y);
    assert s[|a|] == ':' && t[|b|] == ':';
    assert forall i :: 0 <= i < |a| ==> s[i] == a[i];
    assert forall i :: 0 <= i < |b| ==> t[i] == b[i];
    assert a == s[..|a|] && b == t[..|b|];
    assert x == s[|a| + 1..] && y == t[|b| + 1..];
  }

  lemma EventKeysDistinct(j: EventKey, k: EventKey)
    requires Plain(j.op) && Plain(k.op) && RenderEvent(j) == RenderEvent(k)
    ensures j == k
  {
    var restJ, restK := ":" + Decimal(j.attempt), ":" + Decimal(k.attempt);
    SplitAtColon(j.op, KindName(j.kind) + restJ, k.op, KindName(k.kind) + restK);
    SplitAtColon(KindName(j.kind), Decimal(j.attempt), KindName(k.kind), Decimal(k.attempt));
    DecimalInjective(j.attempt, k.attempt);
    KindNamesDistinct(j.kind, k.kind);
  }

  lemma KindNamesDistinct(j: EventKind, k: EventKind)
    ensures KindName(j) == KindName(k) ==> j == k
  {
    assert KindName(j)[10] == KindName(k)[10] ==> j == k;
  }

  function Family(f: FlowId): string {
    match f
    case OperationFlow(_) => "operation"
    case RetryFlow(_, _) => "retry"
    case RecoveryFlow(_, _) => "lease-recovery"
    case RedriveFlow(_, _) => "redrive"
  }

  function Suffix(f: FlowId): string {
    match f
    case OperationFlow(op) => op
    case RetryFlow(op, attempt) => op + (":" + Decimal(attempt))
    case RecoveryFlow(op, attempt) => op + (":" + Decimal(attempt))
    case RedriveFlow(op, nonce) => op + (":" + nonce)
  }

  lemma FlowIdsDistinct(f: FlowId, g: FlowId)
    requires Plain(f.op) && Plain(g.op) && RenderFlow(f) == RenderFlow(g)
    ensures f == g
  {
    assert RenderFlow(f) == Family(f) + (":" + Suffix(f)) && RenderFlow(g) == Family(g) + (":" + Suffix(g));
    SplitAtColon(Family(f), Suffix(f), Family(g), Suffix(g));
    assert |Family(f)| == |Family(g)|;
    match f
    case OperationFlow(_) =>
    case RetryFlow(_, attempt) =>
      SplitAtColon(f.op, Decimal(attempt), g.op, Decimal(g.attempt));
      DecimalInjective(attempt, g.attempt);
    case RecoveryFlow(_, attempt) =>
      SplitAtColon(f.op, Decimal(attempt), g.op, Decimal(g.attempt));
      DecimalInjective(attempt, g.attempt);
    case RedriveFlow(_, nonce) => SplitAtColon(f.op, nonce, g.op, g.nonce);
  }
}
