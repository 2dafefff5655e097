/**
 Disciplined runs built life by life: an operation is claimed, fails its way up to an attempt, is
 dead-lettered and redriven, over and over. The workflow that queued it first died many times just after
 publishing, so the stream holds as many messages as there are claims to make. With them the charge bound
 is attained for every budget, and a redriven operation's event is dropped.
 */
module Attained {
  import opened Domain
  import opened Rows
  import opened Tables
  import opened Protocol
  import opened Effects
  import opened Budget
  import opened Charges
  import opened Handlers
  import opened Alone
  import opened Scenarios

  /** One operation, no request in progress, `unread` messages for it left, redriven `lives` times. */
  ghost predicate Alive(s: State, max: int, status: Status, attempt: int, unread: nat, keys: set<EventKey>,
                        lives: nat) {
    s == Quiet(s.db, s.replies) && Holds(s.db, max, status, attempt, unread, keys, lives)
  }

  ghost predicate Holds(db: Db, max: int, status: Status, attempt: int, unread: nat, keys: set<EventKey>, lives: nat) {
    && db.limits == map[TENANT := 1] && db.rows.Keys == {OP} && db.history.Keys == {OP}
    && IsRow(db.rows[OP], max, status, attempt)
    && CursorOf(db, TENANT) + unread == |db.stream| && AllJobs(db.stream)
    && db.events.Keys == keys
    && NoncesBelow(db.flows, lives)
  }

  predicate IsRow(r: Row, max: int, status: Status, attempt: int) {
    && r.tenant == TENANT && r.mode == Private && r.maxAttempts == max && r.status == status && r.attempt == attempt
    && (status == Running ==> r.owner == Some(WORKER))
  }

  predicate AllJobs(stream: seq<Message>) {
    forall i :: 0 <= i < |stream| ==> stream[i] == Job(ENV)
  }

  predicate NoncesBelow(flows: map<FlowId, Flow>, n: nat) {
    forall f :: f in flows && f.RedriveFlow? ==> |f.nonce| < n
  }

  // ----- The first workflow, with its crashes -----

  /** The step writes one row and the stream. */
  predicate RestKept(db: Db, db': Db) {
    && db'.limits == db.limits && db'.cursors == db.cursors && db'.flows == db.flows && db'.events == db.events
    && db'.now == db.now
  }

  lemma StepKeepsRest(db: Db, env: Envelope, reach: Reach)
    ensures RestKept(db, RunStepDb(db, env, reach))
  {
    var db1 := UpdateDb(db, env.op);
    assert RestKept(db, db1);
    assert RestKept(db1, PublishDb(db1, env));
  }

  lemma {:induction false} EnqueueKeepsRest(db: Db, env: Envelope, crashes: seq<Reach>)
    ensures RestKept(db, EnqueueDb(db, env, crashes))
    decreases |crashes|
  {
    if crashes == [] {
      StepKeepsRest(db, env, Finishes);
    } else {
      StepKeepsRest(db, env, crashes[0]);
      EnqueueKeepsRest(RunStepDb(db, env, crashes[0]), env, crashes[1..]);
    }
  }

  /** n runs of the step that die after adding the message. */
  function Deaths(n: nat): (crashes: seq<Reach>)
    ensures Finishes !in crashes && Published(crashes) == n
  {
    if n == 0 then [] else
      assert ([DiesAfterPublish] + Deaths(n - 1))[1..] == Deaths(n - 1);
      [DiesAfterPublish] + Deaths(n - 1)
  }

  lemma {:induction false} CopiesAreJobs(n: nat)
    ensures |Copies(Job(ENV), n)| == n && AllJobs(Copies(Job(ENV), n))
  {
    if n > 0 {
      CopiesAreJobs(n - 1);
    }
  }

  /** What a workflow that died n times after publishing leaves. */
  lemma QueuedBy(db: Db, n: nat)
    requires db.rows.Keys == {OP} && OP in db.history && db.rows[OP].status == Pending && db.stream == []
    ensures
      var db' := EnqueueDb(db, ENV, Deaths(n));
      && db'.rows == db.rows[OP := Apply(db.rows[OP], Enqueue)] && db'.history.Keys == db.history.Keys
      && |db'.stream| == n + 1 && AllJobs(db'.stream) && RestKept(db, db')
  {
    EnqueueSurvivesCrashes(db, ENV, Deaths(n));
    EnqueueKeepsRest(db, ENV, Deaths(n));
    CopiesAreJobs(n + 1);
  }

  /** Created and queued, with n + 1 messages. */
  lemma IsQueued(max: int, n: nat) returns (from: State, s: State)
    requires 1 <= max <= 10
    ensures IsInit(from) && Reaches(from, s, 30) && Alive(s, max, Queued, 0, n + 1, {}, 0)
  {
    var s0;
    from, s0 := Scenarios.Starts(max);
    CrashesAlone(from, s0, OperationFlow(OP), Deaths(n), 30);
    QueuedBy(s0.db, n);
    s := s0.(db := SetPhase(EnqueueDb(s0.db, ENV, Deaths(n)), OperationFlow(OP), Done));
  }

  // ----- One request at a time -----

  lemma PollTakesNext(db: Db)
    requires WellFormed(db) && db.limits == map[TENANT := 1] && db.rows.Keys == {OP}
    requires db.rows[OP].tenant == TENANT && db.rows[OP].status in {Queued, Retrying}
    requires CursorOf(db, TENANT) < |db.stream| && AllJobs(db.stream)
    ensures
      var c := CursorOf(db, TENANT);
      PollDb(db, TENANT, WORKER).0
      == Write(db, OP, Claim(WORKER, db.now + 45)).(cursors := db.cursors[TENANT := c + 1])
  {
    var c := CursorOf(db, TENANT);
    assert RunningSet(db.rows, TENANT) == {};
    assert Wanted(db, TENANT, c);
    assert FirstWanted(db, TENANT, c, BatchEnd(db, c)) == c;
  }

  lemma PolledDb(db: Db, max: int, status: Status, attempt: int, unread: nat, keys: set<EventKey>, lives: nat)
    requires Holds(db, max, status, attempt, unread, keys, lives) && status in {Queued, Retrying} && unread > 0
    ensures
      var db' := PollDb(db, TENANT, WORKER).0;
      Holds(db', max, Running, attempt + 1, unread - 1, keys, lives)
  {
    PollTakesNext(db);
  }

  lemma IsPolled(from: State, s: State, max: int, status: Status, attempt: int, unread: nat, keys: set<EventKey>,
                 lives: nat) returns (s': State)
    requires Reaches(from, s, 30) && Alive(s, max, status, attempt, unread, keys, lives)
    requires status in {Queued, Retrying} && unread > 0
    ensures Reaches(from, s', 30) && Alive(s', max, Running, attempt + 1, unread - 1, keys, lives)
  {
    PollAlone(s, TENANT, WORKER, 30);
    PolledDb(s.db, max, status, attempt, unread, keys, lives);
    s' := s.(db := PollDb(s.db, TENANT, WORKER).0);
    Joined(from, s, s', 30);
  }

  /** A report leaves stream and cursors alone, and starts no redrive workflow. */
  lemma FailedRest(db: Db, retryable: bool)
    requires OP in db.rows && OP in db.history && OwnedBy(db.rows[OP], WORKER) && db.rows[OP].tenant == TENANT
    ensures
      var db' := FailDb(db, OP, Some(TENANT), WORKER, retryable);
      && db'.limits == db.limits && db'.stream == db.stream && db'.cursors == db.cursors
      && db'.history.Keys == db.history.Keys && db'.rows[OP].tenant == TENANT && db'.rows[OP].mode == db.rows[OP].mode
      && db'.rows[OP].maxAttempts == db.rows[OP].maxAttempts
  {
    var r := db.rows[OP];
    var to := FailTarget(retryable, r.attempt, r.maxAttempts);
    var db1 := Write(db, OP, Fail(WORKER, to));
    var db2 := InsertEvent(db1, EventKey(OP, FailKind(to), r.attempt), TENANT);
    assert db2 == db1.(events := db2.events);
    var db3 := RunWorkflow(db2, RetryFlow(OP, r.attempt), EnvelopeOf(OP, r), db.now + Delay(r.attempt));
    assert db3 == db2.(flows := db3.flows);
  }

  lemma FailedDb(db: Db, max: int, attempt: int, unread: nat, keys: set<EventKey>, lives: nat, retryable: bool)
    requires Holds(db, max, Running, attempt, unread, keys, lives)
    ensures
      var to, db' := FailTarget(retryable, attempt, max), FailDb(db, OP, Some(TENANT), WORKER, retryable);
      Holds(db', max, to, attempt, unread, keys + {EventKey(OP, FailKind(to), attempt)}, lives)
  {
    FailOutcome(db, OP, Some(TENANT), WORKER, retryable);
    FailTrail(db, OP, Some(TENANT), WORKER, retryable);
    FailedRest(db, retryable);
  }

  lemma Fails(from: State, s: State, max: int, attempt: int, unread: nat, keys: set<EventKey>, lives: nat,
              retryable: bool) returns (s': State)
    requires Reaches(from, s, 30) && Alive(s, max, Running, attempt, unread, keys, lives)
    ensures
      var to := FailTarget(retryable, attempt, max);
      Alive(s', max, to, attempt, unread, keys + {EventKey(OP, FailKind(to), attempt)}, lives)
    ensures Reaches(from, s', 30)
  {
    FailAlone(s, OP, Some(TENANT), WORKER, retryable, 30);
    FailedDb(s.db, max, attempt, unread, keys, lives, retryable);
    s' := s.(db := FailDb(s.db, OP, Some(TENANT), WORKER, retryable));
    Joined(from, s, s', 30);
  }

  lemma Succeeds(from: State, s: State, max: int, attempt: int, unread: nat, keys: set<EventKey>, lives: nat)
    returns (s': State)
    requires Reaches(from, s, 30) && Alive(s, max, Running, attempt, unread, keys, lives)
    ensures Alive(s', max, Succeeded, attempt, unread, keys + {EventKey(OP, SucceededEvent, attempt)}, lives)
    ensures Reaches(from, s', 30)
  {
    CompleteAlone(s, OP, Some(TENANT), WORKER, 30);
    CompleteOutcome(s.db, OP, Some(TENANT), WORKER);
    s' := s.(db := CompleteDb(s.db, OP, Some(TENANT), WORKER));
    Joined(from, s, s', 30);
  }

  function Nonce(n: nat): (nonce: string)
    ensures |nonce| == n
  {
    seq(n, _ => 'x')
  }

  lemma IsRevived(from: State, s: State, max: int, attempt: int, unread: nat, keys: set<EventKey>, lives: nat)
    returns (s': State)
    requires Reaches(from, s, 30) && Alive(s, max, DeadLettered, attempt, unread, keys, lives)
    ensures Reaches(from, s', 30) && Alive(s', max, Retrying, 0, unread, keys, lives + 1)
  {
    RedriveAlone(s, OP, TENANT, Nonce(lives), 30);
    RedriveOutcome(s.db, OP, TENANT, Nonce(lives));
    s' := s.(db := RedriveDb(s.db, OP, TENANT, Nonce(lives)));
    Joined(from, s, s', 30);
  }

  // ----- Lives -----

  /** Events recorded for the first n attempts. */
  predicate Recorded(keys: set<EventKey>, kind: EventKind, n: nat) {
    forall a :: 1 <= a <= n ==> EventKey(OP, kind, a) in keys
  }

  lemma OneMore(keys: set<EventKey>, kind: EventKind, n: nat)
    requires Recorded(keys, kind, n)
    ensures Recorded(keys + {EventKey(OP, kind, n + 1)}, kind, n + 1)
  {
  }

  /** A claim and a retryable failure. */
  lemma IsRetried(from: State, s: State, max: int, status: Status, attempt: int, unread: nat, keys: set<EventKey>,
                  lives: nat) returns (s': State)
    requires Reaches(from, s, 30) && Alive(s, max, status, attempt, unread, keys, lives)
    requires status in {Queued, Retrying} && attempt + 1 < max && unread > 0
    ensures Reaches(from, s', 30)
    ensures Alive(s', max, Retrying, attempt + 1, unread - 1, keys + {EventKey(OP, FailedEvent, attempt + 1)}, lives)
  {
    s' := IsPolled(from, s, max, status, attempt, unread, keys, lives);
    s' := Fails(from, s', max, attempt + 1, unread - 1, keys, lives, true);
  }

  /** Claims and retryable failures, up to the k-th attempt. */
  lemma {:induction false} Climbs(from: State, s: State, max: int, status: Status, attempt: nat, k: nat, unread: nat,
                                  keys: set<EventKey>, lives: nat) returns (s': State, keys': set<EventKey>)
    requires Reaches(from, s, 30) && Alive(s, max, status, attempt, unread, keys, lives)
    requires status in {Queued, Retrying} && attempt < k <= max && unread >= k - attempt
    requires Recorded(keys, FailedEvent, attempt)
    ensures Reaches(from, s', 30) && Alive(s', max, Running, k, unread - (k - attempt), keys', lives)
    ensures keys <= keys' && Recorded(keys', FailedEvent, k - 1)
    decreases k - attempt
  {
    if attempt + 1 < k {
      s' := IsRetried(from, s, max, status, attempt, unread, keys, lives);
      keys' := keys + {EventKey(OP, FailedEvent, attempt + 1)};
      OneMore(keys, FailedEvent, attempt);
      s', keys' := Climbs(from, s', max, Retrying, attempt + 1, k, unread - 1, keys', lives);
    } else {
      s' := IsPolled(from, s, max, status, attempt, unread, keys, lives);
      keys' := keys;
    }
  }

  /** A failure that is not to be retried, and a redrive. */
  lemma DiesAndRevives(from: State, s: State, max: int, attempt: int, unread: nat, keys: set<EventKey>, lives: nat)
    returns (s': State)
    requires Reaches(from, s, 30) && Alive(s, max, Running, attempt, unread, keys, lives)
    ensures Reaches(from, s', 30)
    ensures Alive(s', max, Retrying, 0, unread, keys + {EventKey(OP, DeadLetteredEvent, attempt)}, lives + 1)
  {
    s' := Fails(from, s, max, attempt, unread, keys, lives, false);
    s' := IsRevived(from, s', max, attempt, unread, keys + {EventKey(OP, DeadLetteredEvent, attempt)}, lives);
  }

  lemma LifeRecorded(keys: set<EventKey>, climbed: set<EventKey>, k: nat)
    requires 1 <= k && keys <= climbed
    requires Recorded(keys, DeadLetteredEvent, k - 1) && Recorded(climbed, FailedEvent, k - 1)
    ensures Recorded(climbed + {EventKey(OP, DeadLetteredEvent, k)}, FailedEvent, k - 1)
    ensures Recorded(climbed + {EventKey(OP, DeadLetteredEvent, k)}, DeadLetteredEvent, k)
  {
  }

  /** A life that is dead-lettered in its k-th attempt, and a redrive. */
  lemma Lives(from: State, s: State, max: int, status: Status, k: nat, unread: nat, keys: set<EventKey>, lives: nat)
    returns (s': State, keys': set<EventKey>)
    requires Reaches(from, s, 30) && Alive(s, max, status, 0, unread, keys, lives)
    requires status in {Queued, Retrying} && 1 <= k <= max && unread >= k
    requires Recorded(keys, DeadLetteredEvent, k - 1)
    ensures Reaches(from, s', 30) && Alive(s', max, Retrying, 0, unread - k, keys', lives + 1)
    ensures Recorded(keys', FailedEvent, k - 1) && Recorded(keys', DeadLetteredEvent, k)
  {
    var s1, keys1 := Climbs(from, s, max, status, 0, k, unread, keys, lives);
    s' := DiesAndRevives(from, s1, max, k, unread - k, keys1, lives);
    keys' := keys1 + {EventKey(OP, DeadLetteredEvent, k)};
    LifeRecorded(keys, keys1, k);
  }

  /** Claims of the lives from the k-th on, and one more. */
  function ClaimsFrom(k: nat, max: nat): nat
    requires k <= max
    decreases max - k
  {
    k + if k == max then 1 else ClaimsFrom(k + 1, max)
  }

  lemma {:induction false} LivesOn(from: State, s: State, max: nat, status: Status, k: nat, keys: set<EventKey>,
                                   lives: nat)
    returns (s': State, keys': set<EventKey>, lives': nat)
    requires status in {Queued, Retrying} && 1 <= k <= max && Recorded(keys, DeadLetteredEvent, k - 1)
    requires Reaches(from, s, 30) && Alive(s, max, status, 0, ClaimsFrom(k, max), keys, lives)
    ensures Reaches(from, s', 30) && Alive(s', max, Retrying, 0, 1, keys', lives')
    ensures Recorded(keys', FailedEvent, max - 1) && Recorded(keys', DeadLetteredEvent, max)
    decreases max - k
  {
    s', keys' := Lives(from, s, max, status, k, ClaimsFrom(k, max), keys, lives);
    lives' := lives + 1;
    if k < max {
      s', keys', lives' := LivesOn(from, s', max, Retrying, k + 1, keys', lives');
    }
  }

  // ----- The charge bound is attained -----

  lemma {:induction false} RangeSize(keys: set<EventKey>, kind: EventKind, n: nat)
    requires Recorded(keys, kind, n)
    ensures |KeyRange(OP, kind, n)| == n && KeyRange(OP, kind, n) <= keys
    ensures forall k :: k in KeyRange(OP, kind, n) ==> k.op == OP && k.kind == kind && k.attempt <= n
  {
    if n > 0 {
      RangeSize(keys, kind, n - 1);
    }
  }

  lemma AreKeysOf(db: Db, kind: EventKind, n: nat)
    requires Recorded(db.events.Keys, kind, n)
    ensures Recorded(KeysOf(db, OP), kind, n)
  {
  }

  lemma ThreeKinds(failed: set<EventKey>, dead: set<EventKey>, keys: set<EventKey>)
    requires forall k :: k in failed ==> k.kind == FailedEvent
    requires forall k :: k in dead ==> k.kind == DeadLetteredEvent
    requires failed + dead + {EventKey(OP, SucceededEvent, 1)} <= keys
    ensures |keys| >= |failed| + |dead| + 1
  {
    assert |failed + dead| == |failed| + |dead|;
    SubsetSize(failed + dead + {EventKey(OP, SucceededEvent, 1)}, keys);
  }

  lemma TwiceBudgetKeys(keys: set<EventKey>, max: nat)
    requires 1 <= max && Recorded(keys, FailedEvent, max - 1) && Recorded(keys, DeadLetteredEvent, max)
    requires EventKey(OP, SucceededEvent, 1) in keys
    ensures |keys| >= 2 * max
  {
    RangeSize(keys, FailedEvent, max - 1);
    RangeSize(keys, DeadLetteredEvent, max);
    ThreeKinds(KeyRange(OP, FailedEvent, max - 1), KeyRange(OP, DeadLetteredEvent, max), keys);
  }

  /**
   For every budget there is a run that attains the charge bound: the k-th life fails k - 1 times and is
   dead-lettered in attempt k, for each k up to the budget, and one more life succeeds.
   */
  lemma ChargeBoundAttained(max: nat) returns (trace: seq<State>, steps: seq<Step>)
    requires 1 <= max <= 10
    ensures DisciplinedRun(trace, steps, 30)
    ensures
      var db := trace[|steps|].db;
      OP in db.rows && db.rows[OP].maxAttempts == max && |KeysOf(db, OP)| == 2 * max
  {
    var from, s := IsQueued(max, ClaimsFrom(1, max) - 1);
    var keys, lives: nat;
    s, keys, lives := LivesOn(from, s, max, Queued, 1, {}, 0);
    s := IsPolled(from, s, max, Retrying, 0, 1, keys, lives);
    s := Succeeds(from, s, max, 1, 0, keys, lives);
    trace, steps := RunTo(from, s);
    AreKeysOf(s.db, FailedEvent, max - 1);
    AreKeysOf(s.db, DeadLetteredEvent, max);
    TwiceBudgetKeys(KeysOf(s.db, OP), max);
    EventBound(trace, steps, 30, |steps|, OP);
  }

  // ----- An event is dropped -----

  lemma Extend(trace: seq<State>, steps: seq<Step>, step: Step, s': State)
    returns (trace': seq<State>, steps': seq<Step>)
    requires DisciplinedRun(trace, steps, 30) && Next(trace[|steps|], step, s') && Disciplined(trace[|steps|], step, 30)
    ensures trace' == trace + [s'] && steps' == steps + [step]
    ensures DisciplinedRun(trace', steps', 30) && trace'[|steps'|] == s'
  {
    trace', steps' := trace + [s'], steps + [step];
    forall i | 0 <= i < |steps'|
      ensures Next(trace'[i], steps'[i], trace'[i + 1]) && Disciplined(trace'[i], steps'[i], 30)
    {
      assert i < |steps| ==> steps'[i] == steps[i] && trace'[i] == trace[i] && trace'[i + 1] == trace[i + 1];
    }
  }

  /** Both attempts failed, one message unread. */
  lemma BothAttemptsFail() returns (from: State, s: State, keys: set<EventKey>)
    ensures IsInit(from) && Reaches(from, s, 30) && Alive(s, 2, DeadLettered, 2, 1, keys, 0)
    ensures EventKey(OP, FailedEvent, 1) in keys
  {
    var keys1;
    from, s := IsQueued(2, 2);
    s, keys1 := Climbs(from, s, 2, Queued, 0, 2, 3, {}, 0);
    s := Fails(from, s, 2, 2, 1, keys1, 0, true);
    keys := keys1 + {EventKey(OP, DeadLetteredEvent, 2)};
  }

  /** Redriven after two attempts, the operation is in its first one again. */
  lemma FirstAttemptAgain() returns (trace: seq<State>, steps: seq<Step>, keys: set<EventKey>)
    ensures DisciplinedRun(trace, steps, 30) && Alive(trace[|steps|], 2, Running, 1, 0, keys, 1)
    ensures EventKey(OP, FailedEvent, 1) in keys
  {
    var from, s;
    from, s, keys := BothAttemptsFail();
    s := IsRevived(from, s, 2, 2, 1, keys, 0);
    s := IsPolled(from, s, 2, Retrying, 0, 1, keys, 1);
    trace, steps := RunTo(from, s);
  }

  /** The step drops an event, so that nothing new is recorded. */
  lemma SecondFailure(s: State, max: int, unread: nat, keys: set<EventKey>, lives: nat) returns (s1: State, s2: State)
    requires Alive(s, max, Running, 1, unread, keys, lives) && max > 1 && EventKey(OP, FailedEvent, 1) in keys
    ensures
      var read, write := ByOwner(StFailRead(0, OP, Some(TENANT), WORKER, true)), ByOwner(StFailWrite(0));
      && Next(s, read, s1) && Next(s1, write, s2) && Disciplined(s, read, 30) && Disciplined(s1, write, 30)
      && EmitOf(s1, write) == Some(Emit(EventKey(OP, FailedEvent, 1), TENANT)) && DropsFor(s1, write, OP)
  {
    s1 := DoFailRead(s, 0, OP, Some(TENANT), WORKER, true);
    s2 := DoFailWrite(s1, 0);
  }

  /** Its second failure of attempt 1 finds the key of the first: the run ends with an event dropped. */
  lemma RedriveDropsEvent() returns (trace: seq<State>, steps: seq<Step>)
    ensures DisciplinedRun(trace, steps, 30) && steps != []
    ensures
      var n := |steps| - 1;
      EmitOf(trace[n], steps[n]) == Some(Emit(EventKey(OP, FailedEvent, 1), TENANT)) && DropsFor(trace[n], steps[n], OP)
    ensures |KeysOf(trace[|steps|].db, OP)| < Emitted(trace, steps, |steps|, OP)
  {
    var keys;
    trace, steps, keys := FirstAttemptAgain();
    var s1, s2 := SecondFailure(trace[|steps|], 2, 0, keys, 1);
    trace, steps := Extend(trace, steps, ByOwner(StFailRead(0, OP, Some(TENANT), WORKER, true)), s1);
    trace, steps := Extend(trace, steps, ByOwner(StFailWrite(0)), s2);
    RecordedOrDropped(trace, steps, |steps|, OP);
  }
}
