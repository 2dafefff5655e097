/**
 How many usage events one operation can cause on the private path, over whole disciplined runs with
 any number of retries, lease recoveries and redrives. Every event is one unit, keyed by operation,
 event type and attempt.
 */
module Charges {
  import opened Domain
  import opened Rows
  import opened Tables
  import opened Protocol
  import opened Effects
  import opened Addressing
  import opened Budget

  predicate NeverRedriven(db: Db, o: string) {
    o in db.history && Redrives(db.history[o]) == 0
  }

  /** A key stands for one closed attempt of its operation. */
  predicate KeyPlaced(db: Db, k: EventKey) {
    && k.op in db.rows && k.op in db.history
    && 1 <= k.attempt <= db.rows[k.op].maxAttempts
    && (k.kind == FailedEvent ==> k.attempt < db.rows[k.op].maxAttempts)
    && (k.kind == SucceededEvent ==> db.rows[k.op].status == Succeeded && db.rows[k.op].attempt == k.attempt)
    && (NeverRedriven(db, k.op) ==>
          && k.attempt <= db.rows[k.op].attempt
          && (k.attempt == db.rows[k.op].attempt ==> db.rows[k.op].status != Running))
  }

  predicate SameAttempt(j: EventKey, k: EventKey) {
    j.op == k.op && j.attempt == k.attempt
  }

  ghost predicate EventsPlaced(db: Db) {
    && (forall k :: k in db.events ==> KeyPlaced(db, k) && db.events[k] == Event(db.rows[k.op].tenant, 1))
    && (forall j, k :: j in db.events && k in db.events && SameAttempt(j, k) && NeverRedriven(db, k.op) ==> j == k)
  }

  /** Events come from closes: the row is RUNNING with the key's attempt, and ends as the key's type says. */
  predicate Closing(db: Db, e: Effect, m: Emit) {
    && e.Changed? && e.o == m.key.op && Hits(db, e.o, e.u)
    && db.rows[e.o].status == Running && db.rows[e.o].attempt == m.key.attempt && db.rows[e.o].tenant == m.tenant
    && (match m.key.kind
        case SucceededEvent => e.u.Complete?
        case FailedEvent => e.u.Fail? && e.u.to == Retrying
        case DeadLetteredEvent => (e.u.Fail? || e.u.Reap?) && e.u.to == DeadLettered)
  }

  lemma EmitCloses(s: State, step: Step, s': State, window: int)
    requires Budgeted(s, window) && AllAddressed(s) && Disciplined(s, step, window)
    requires Next(s, step, s') && EmitOf(s, step).Some?
    ensures Closing(s.db, EffectOf(s, step), EmitOf(s, step).value)
  {
    match step
    case ByOwner(x) => OwnerCloses(s, x, s', window);
    case ByReap(x) => ReapCloses(s, x, window);
    case _ =>
  }

  lemma OwnerCloses(s: State, step: OwnerStep, s': State, window: int)
    requires OwnerNext(s, step, s') && OwnerEmit(s, step).Some?
    requires step.StFailWrite? ==> step.h in s.handlers && ReportFresh(s.db, s.handlers[step.h])
    ensures Closing(s.db, OwnerEffect(s, step), OwnerEmit(s, step).value)
  {
  }

  lemma ReapCloses(s: State, step: ReapStep, window: int)
    requires Budgeted(s, window) && AllAddressed(s) && Disciplined(s, ByReap(step), window) && ReapEmit(s, step).Some?
    ensures Closing(s.db, ReapEffect(s, step), ReapEmit(s, step).value)
  {
    ReapInTime(s, ByReap(step), window);
    assert HandlerAddressed(s.db, s.handlers[step.h]);
  }

  lemma RedrivesGrow(db: Db, e: Effect, db': Db, o: string)
    requires Follows(db, e, db') && o in db.history && o in db.rows
    ensures o in db'.history
    ensures Redrives(db'.history[o]) == Redrives(db.history[o]) + if e == Changed(o, Redrive) then 1 else 0
    ensures Redrives(db.history[o]) <= Redrives(db'.history[o])
  {
    if e.Changed? && e.o == o && !e.u.Heartbeat? {
      var after := db'.history[o];
      assert after[..|after| - 1] == db.history[o];
    }
  }

  lemma PlacedStays(db: Db, e: Effect, db': Db, k: EventKey)
    requires KeyPlaced(db, k) && Follows(db, e, db')
    ensures KeyPlaced(db', k)
  {
    RedrivesGrow(db, e, db', k.op);
    match e
    case Nothing =>
    case Added(o, _) => assert o != k.op;
    case Changed(o, u) =>
      if o == k.op {
        assert db'.rows[o] == Apply(db.rows[o], u);
      }
  }

  lemma NewKeyPlaced(db: Db, e: Effect, db': Db, m: Emit)
    requires RowsBounded(db) && Closing(db, e, m) && Follows(db, e, db') && Affordable(db.rows[e.o], e.u)
    ensures KeyPlaced(db', m.key) && db'.rows[m.key.op].tenant == m.tenant
  {
    RedrivesGrow(db, e, db', m.key.op);
    assert WithinBudget(db.rows[e.o]);
  }

  lemma StepPlaced(s: State, step: Step, s': State, window: int)
    requires Budgeted(s, window) && AllAddressed(s) && EventsPlaced(s.db)
    requires Next(s, step, s') && Disciplined(s, step, window) && window <= 30
    ensures EventsPlaced(s'.db)
  {
    StepEffects(s, step, s');
    StepEvents(s, step, s');
    var e, m := EffectOf(s, step), EmitOf(s, step);
    if m.Some? {
      EmitCloses(s, step, s', window);
      WritesAffordable(s, step, window);
      NewKeyPlaced(s.db, e, s'.db, m.value);
    }
    EventsStay(s.db, e, s'.db, m);
  }

  lemma EventsStay(db: Db, e: Effect, db': Db, m: Option<Emit>)
    requires EventsPlaced(db) && Follows(db, e, db') && db'.events == EventsAfter(db, m)
    requires m.Some? ==>
        Closing(db, e, m.value) && KeyPlaced(db', m.value.key) && db'.rows[m.value.key.op].tenant == m.value.tenant
    ensures EventsPlaced(db')
  {
    FollowsKeepsIdentity(db, e, db');
    forall k | k in db'.events
      ensures KeyPlaced(db', k) && db'.events[k] == Event(db'.rows[k.op].tenant, 1)
    {
      if k in db.events {
        PlacedStays(db, e, db', k);
      }
    }
    forall j, k | j in db'.events && k in db'.events && SameAttempt(j, k) && NeverRedriven(db', k.op)
      ensures j == k
    {
      assert j in db.events || k in db.events || j == k;
      RedrivesGrow(db, e, db', k.op);
    }
  }

  lemma {:induction false} RunPlaced(trace: seq<State>, steps: seq<Step>, window: int, i: nat)
    requires DisciplinedRun(trace, steps, window) && i <= |steps|
    ensures EventsPlaced(trace[i].db)
  {
    if i > 0 {
      RunPlaced(trace, steps, window, i - 1);
      RunBudgeted(trace, steps, window, i - 1);
      RunAddressed(trace, steps, i - 1);
      StepPlaced(trace[i - 1], steps[i - 1], trace[i], window);
    }
  }

  // ----- Counting keys -----

  function KeysOf(db: Db, o: string): set<EventKey> {
    set k | k in db.events && k.op == o
  }

  /** The keys of one type for attempts 1..n. */
  function KeyRange(o: string, kind: EventKind, n: nat): (keys: set<EventKey>)
    ensures forall a :: 1 <= a <= n ==> EventKey(o, kind, a) in keys
    ensures |keys| <= n
  {
    if n == 0 then {} else KeyRange(o, kind, n - 1) + {EventKey(o, kind, n)}
  }

  lemma KeysAtMostTwiceBudget(db: Db, o: string)
    requires EventsPlaced(db) && o in db.rows && 1 <= db.rows[o].maxAttempts
    ensures |KeysOf(db, o)| <= 2 * db.rows[o].maxAttempts
  {
    var max := db.rows[o].maxAttempts;
    var failed, dead := KeyRange(o, FailedEvent, max - 1), KeyRange(o, DeadLetteredEvent, max);
    var succeeded := {EventKey(o, SucceededEvent, db.rows[o].attempt)};
    assert KeysOf(db, o) <= failed + dead + succeeded;
    SubsetSize(KeysOf(db, o), failed + dead + succeeded);
  }

  /** A set of keys with distinct attempts in 1..n has at most n members. */
  lemma {:induction false} DistinctAttempts(keys: set<EventKey>, n: nat)
    requires forall k :: k in keys ==> 1 <= k.attempt <= n
    requires forall j, k :: j in keys && k in keys && j.attempt == k.attempt ==> j == k
    ensures |keys| <= n
  {
    if n == 0 {
      assert keys == {};
    } else {
      if x :| x in keys && x.attempt == n {
        DistinctAttempts(keys - {x}, n - 1);
      } else {
        DistinctAttempts(keys, n - 1);
      }
    }
  }

  /** Without a redrive each attempt closes once, so its keys have distinct attempts. */
  lemma KeysAtMostBudget(db: Db, o: string)
    requires EventsPlaced(db) && o in db.rows && db.rows[o].maxAttempts >= 0 && NeverRedriven(db, o)
    ensures |KeysOf(db, o)| <= db.rows[o].maxAttempts
  {
    forall j, k | j in KeysOf(db, o) && k in KeysOf(db, o) && j.attempt == k.attempt
      ensures j == k
    {
      assert SameAttempt(j, k);
    }
    forall k | k in KeysOf(db, o)
      ensures 1 <= k.attempt <= db.rows[o].maxAttempts
    {
      assert KeyPlaced(db, k);
    }
    DistinctAttempts(KeysOf(db, o), db.rows[o].maxAttempts);
  }

  /**
   However often it is retried, reaped or redriven, an operation records at most 2*max events, and max if
   never redriven.
   */
  lemma EventBound(trace: seq<State>, steps: seq<Step>, window: int, i: nat, o: string)
    requires DisciplinedRun(trace, steps, window) && i <= |steps| && o in trace[i].db.rows
    ensures |KeysOf(trace[i].db, o)| <= 2 * trace[i].db.rows[o].maxAttempts
    ensures NeverRedriven(trace[i].db, o) ==> |KeysOf(trace[i].db, o)| <= trace[i].db.rows[o].maxAttempts
    ensures forall k :: k in KeysOf(trace[i].db, o) ==> trace[i].db.events[k] == Event(trace[i].db.rows[o].tenant, 1)
  {
    RunPlaced(trace, steps, window, i);
    RunBudgeted(trace, steps, window, i);
    KeysAtMostTwiceBudget(trace[i].db, o);
    if NeverRedriven(trace[i].db, o) {
      KeysAtMostBudget(trace[i].db, o);
    }
  }

  // ----- Events that are dropped -----

  /** The step emits an event of the operation. */
  predicate EmitsFor(s: State, step: Step, o: string) {
    EmitOf(s, step).Some? && EmitOf(s, step).value.key.op == o
  }

  /** The step emits an event of the operation whose key is taken, which ON CONFLICT drops. */
  predicate DropsFor(s: State, step: Step, o: string) {
    EmitsFor(s, step, o) && EmitOf(s, step).value.key in s.db.events
  }

  function Emitted(trace: seq<State>, steps: seq<Step>, i: nat, o: string): nat
    requires i <= |steps| < |trace|
  {
    if i == 0 then 0
    else Emitted(trace, steps, i - 1, o) + if EmitsFor(trace[i - 1], steps[i - 1], o) then 1 else 0
  }

  function Dropped(trace: seq<State>, steps: seq<Step>, i: nat, o: string): nat
    requires i <= |steps| < |trace|
  {
    if i == 0 then 0
    else Dropped(trace, steps, i - 1, o) + if DropsFor(trace[i - 1], steps[i - 1], o) then 1 else 0
  }

  lemma StepCounts(s: State, step: Step, s': State, o: string)
    requires Next(s, step, s')
    ensures |KeysOf(s'.db, o)|
        == |KeysOf(s.db, o)| + if EmitsFor(s, step, o) && !DropsFor(s, step, o) then 1 else 0
  {
    StepEvents(s, step, s');
    if EmitsFor(s, step, o) && !DropsFor(s, step, o) {
      assert KeysOf(s'.db, o) == KeysOf(s.db, o) + {EmitOf(s, step).value.key};
    } else {
      assert KeysOf(s'.db, o) == KeysOf(s.db, o);
    }
  }

  /** In any run: every event an operation's closes emit is recorded or dropped, and none is recorded twice. */
  lemma {:induction false} RecordedOrDropped(trace: seq<State>, steps: seq<Step>, i: nat, o: string)
    requires Run(trace, steps) && i <= |steps|
    ensures |KeysOf(trace[i].db, o)| + Dropped(trace, steps, i, o) == Emitted(trace, steps, i, o)
  {
    if i == 0 {
      assert KeysOf(trace[0].db, o) == {};
    } else {
      RecordedOrDropped(trace, steps, i - 1, o);
      StepCounts(trace[i - 1], steps[i - 1], trace[i], o);
    }
  }

  predicate EmitsKey(s: State, step: Step, key: EventKey) {
    EmitOf(s, step).Some? && EmitOf(s, step).value.key == key
  }

  /** One of the first i steps emitted an event under the key. */
  predicate EmittedBefore(trace: seq<State>, steps: seq<Step>, i: nat, key: EventKey)
    requires i <= |steps| < |trace|
  {
    i > 0 && (EmittedBefore(trace, steps, i - 1, key) || EmitsKey(trace[i - 1], steps[i - 1], key))
  }

  lemma TakenAfter(s: State, step: Step, s': State, key: EventKey)
    requires Next(s, step, s')
    ensures key in s'.db.events <==> key in s.db.events || EmitsKey(s, step, key)
  {
    StepEvents(s, step, s');
  }

  /** In any run: a key is taken if and only if an earlier close, of this type and attempt number, emitted it. */
  lemma {:induction false} TakenExactly(trace: seq<State>, steps: seq<Step>, i: nat, key: EventKey)
    requires Run(trace, steps) && i <= |steps|
    ensures key in trace[i].db.events <==> EmittedBefore(trace, steps, i, key)
  {
    if i > 0 {
      TakenExactly(trace, steps, i - 1, key);
      TakenAfter(trace[i - 1], steps[i - 1], trace[i], key);
    }
  }

  lemma {:induction false} DroppedExactly(trace: seq<State>, steps: seq<Step>, i: nat, o: string)
    requires i <= |steps| < |trace|
    ensures Dropped(trace, steps, i, o) == 0 <==> forall j :: 0 <= j < i ==> !DropsFor(trace[j], steps[j], o)
  {
    if i > 0 {
      DroppedExactly(trace, steps, i - 1, o);
    }
  }

  /** In any run: an operation has an event for each of its emitting closes if and only if none found its key taken. */
  lemma AllRecordedExactly(trace: seq<State>, steps: seq<Step>, i: nat, o: string)
    requires Run(trace, steps) && i <= |steps|
    ensures |KeysOf(trace[i].db, o)| == Emitted(trace, steps, i, o)
        <==> forall j :: 0 <= j < i ==> !DropsFor(trace[j], steps[j], o)
  {
    RecordedOrDropped(trace, steps, i, o);
    DroppedExactly(trace, steps, i, o);
  }

  /** A close of an attempt whose key is taken is one of an operation that was redriven. */
  lemma DropNeedsRedrive(trace: seq<State>, steps: seq<Step>, window: int, i: nat, o: string)
    requires DisciplinedRun(trace, steps, window) && i < |steps| && DropsFor(trace[i], steps[i], o)
    ensures o in trace[i].db.history && !NeverRedriven(trace[i].db, o)
  {
    RunPlaced(trace, steps, window, i);
    RunBudgeted(trace, steps, window, i);
    RunAddressed(trace, steps, i);
    EmitCloses(trace[i], steps[i], trace[i + 1], window);
    assert KeyPlaced(trace[i].db, EmitOf(trace[i], steps[i]).value.key);
  }

  lemma {:induction false} RedrivesStay(trace: seq<State>, steps: seq<Step>, i: nat, j: nat, o: string)
    requires Run(trace, steps) && i <= j <= |steps| && o in trace[i].db.history && o in trace[i].db.rows
    ensures o in trace[j].db.history && o in trace[j].db.rows
    ensures Redrives(trace[i].db.history[o]) <= Redrives(trace[j].db.history[o])
  {
    if i < j {
      RedrivesStay(trace, steps, i, j - 1, o);
      StepEffects(trace[j - 1], steps[j - 1], trace[j]);
      RedrivesGrow(trace[j - 1].db, EffectOf(trace[j - 1], steps[j - 1]), trace[j].db, o);
    }
  }

  /** In any disciplined run: without a redrive no event is dropped, so every emitting close has its own. */
  lemma NeverRedrivenAllRecorded(trace: seq<State>, steps: seq<Step>, window: int, i: nat, o: string)
    requires DisciplinedRun(trace, steps, window) && i <= |steps| && NeverRedriven(trace[i].db, o)
    ensures forall j :: 0 <= j < i ==> !DropsFor(trace[j], steps[j], o)
    ensures |KeysOf(trace[i].db, o)| == Emitted(trace, steps, i, o)
  {
    forall j | 0 <= j < i
      ensures !DropsFor(trace[j], steps[j], o)
    {
      if DropsFor(trace[j], steps[j], o) {
        DropNeedsRedrive(trace, steps, window, j, o);
        RunBudgeted(trace, steps, window, j);
        RedrivesStay(trace, steps, j, i, o);
      }
    }
    AllRecordedExactly(trace, steps, i, o);
  }
}
