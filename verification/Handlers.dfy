/**
 What each handler of the operations service does to the shared tables when nothing interleaves, and
 what that amounts to. Service.dfy proves the handlers' code against these functions; Alone.dfy shows
 that what they give is reached by an uninterrupted run of the interleaving machine.
 */
module Handlers {
  import opened Domain
  import opened Rows
  import opened Tables

  /** Foreign keys and the shadow history: every operation's tenant has a limit. */
  predicate WellFormed(db: Db) {
    db.history.Keys == db.rows.Keys && forall o :: o in db.rows ==> db.rows[o].tenant in db.limits
  }

  // ----- enqueueOperationStep, with crashes -----

  /** How far one run of the step gets. */
  datatype Reach = DiesAtStart | DiesAfterUpdate | DiesAfterLog | DiesAfterPublish | Finishes

  function UpdateDb(db: Db, o: string): Db {
    if Hits(db, o, Enqueue) then Write(db, o, Enqueue) else db
  }

  function PublishDb(db: Db, env: Envelope): Db {
    if env.op in db.rows && db.rows[env.op].status == Queued then db.(stream := db.stream + [Job(env)]) else db
  }

  function RunStepDb(db: Db, env: Envelope, reach: Reach): Db {
    match reach
    case DiesAtStart => db
    case DiesAfterUpdate => UpdateDb(db, env.op)
    case DiesAfterLog => UpdateDb(db, env.op)
    case DiesAfterPublish => PublishDb(UpdateDb(db, env.op), env)
    case Finishes => PublishDb(UpdateDb(db, env.op), env)
  }

  /** The step is run again after each crash, and completes at last. */
  function EnqueueDb(db: Db, env: Envelope, crashes: seq<Reach>): Db
    decreases |crashes|
  {
    if crashes == [] then RunStepDb(db, env, Finishes)
    else EnqueueDb(RunStepDb(db, env, crashes[0]), env, crashes[1..])
  }

  function Published(crashes: seq<Reach>): nat {
    if crashes == [] then 0
    else Published(crashes[1..]) + if crashes[0] in {DiesAfterPublish, Finishes} then 1 else 0
  }

  function Copies(m: Message, n: nat): seq<Message> {
    if n == 0 then [] else [m] + Copies(m, n - 1)
  }

  lemma UpdateOnce(db: Db, env: Envelope)
    requires env.op in db.rows && env.op in db.history
    ensures
      var db1 := UpdateDb(db, env.op);
      && UpdateDb(db1, env.op) == db1
      && UpdateDb(PublishDb(db1, env), env.op) == PublishDb(db1, env)
      && PublishDb(db1, env) == db1.(stream := PublishDb(db1, env).stream)
      && PublishDb(db1, env).stream == db.stream + if db1.rows[env.op].status == Queued then [Job(env)] else []
  {
  }

  lemma OneRunUpdatesOnce(db: Db, env: Envelope, reach: Reach)
    requires env.op in db.rows && env.op in db.history
    ensures UpdateDb(RunStepDb(db, env, reach), env.op).rows == UpdateDb(db, env.op).rows
    ensures UpdateDb(RunStepDb(db, env, reach), env.op).history == UpdateDb(db, env.op).history
    ensures
      RunStepDb(db, env, reach).stream
      == db.stream + if UpdateDb(db, env.op).rows[env.op].status == Queued && reach in {DiesAfterPublish, Finishes}
                     then [Job(env)] else []
  {
    UpdateOnce(db, env);
    match reach
    case DiesAtStart =>
    case DiesAfterUpdate =>
    case DiesAfterLog =>
    case DiesAfterPublish =>
    case Finishes =>
  }

  /**
   Whatever the crashes, the row moves to QUEUED once, and the message is there: one copy more than runs that
   died after adding it.
   */
  lemma {:induction false} EnqueueSurvivesCrashes(db: Db, env: Envelope, crashes: seq<Reach>)
    requires env.op in db.rows && env.op in db.history
    ensures EnqueueDb(db, env, crashes).rows == UpdateDb(db, env.op).rows
    ensures EnqueueDb(db, env, crashes).history == UpdateDb(db, env.op).history
    ensures
      var queued := UpdateDb(db, env.op).rows[env.op].status == Queued;
      EnqueueDb(db, env, crashes).stream == db.stream + Copies(Job(env), if queued then Published(crashes) + 1 else 0)
    decreases |crashes|
  {
    if crashes == [] {
      OneRunUpdatesOnce(db, env, Finishes);
      MoreCopies(db.stream, Job(env), 0);
    } else {
      OneRunUpdatesOnce(db, env, crashes[0]);
      EnqueueSurvivesCrashes(RunStepDb(db, env, crashes[0]), env, crashes[1..]);
      MoreCopies(db.stream, Job(env), Published(crashes[1..]) + 1);
    }
  }

  lemma MoreCopies(s: seq<Message>, m: Message, n: nat)
    ensures (s + [m]) + Copies(m, n) == s + Copies(m, n + 1)
  {
  }

  // ----- claimOperation -----

  predicate BelowLimit(db: Db, tenant: string) {
    tenant in db.limits && RunningCount(db.rows, tenant) < db.limits[tenant]
  }

  predicate ClaimSucceeds(db: Db, op: string, expected: Option<string>) {
    op in db.history && Selected(db, op, expected) && BelowLimit(db, db.rows[op].tenant)
  }

  function ClaimDb(db: Db, op: string, expected: Option<string>, worker: string, seconds: int): Db {
    if ClaimSucceeds(db, op, expected) then Write(db, op, Claim(worker, db.now + seconds)) else db
  }

  /**
   A claim that succeeds puts one more operation of the tenant, within its limit, into a fresh lease of the
   worker's.
   */
  lemma ClaimOutcome(db: Db, op: string, expected: Option<string>, worker: string, seconds: int)
    requires op in db.history && Selected(db, op, expected) && BelowLimit(db, db.rows[op].tenant)
    ensures
      var r, db' := db.rows[op], ClaimDb(db, op, expected, worker, seconds);
      && db'.rows.Keys == db.rows.Keys && (forall o :: o in db.rows && o != op ==> db'.rows[o] == db.rows[o])
      && db'.rows[op].status == Running
      && db'.rows[op].attempt == r.attempt + 1 && db'.rows[op].version == r.version + 1
      && db'.rows[op].owner == Some(worker) && db'.rows[op].expires == Some(db.now + seconds)
    ensures
      var t, db' := db.rows[op].tenant, ClaimDb(db, op, expected, worker, seconds);
      && RunningCount(db'.rows, t) == RunningCount(db.rows, t) + 1 <= db.limits[t]
      && SameQueuesAndEvents(db, db')
  {
    var t, db' := db.rows[op].tenant, ClaimDb(db, op, expected, worker, seconds);
    assert RunningSet(db'.rows, t) == RunningSet(db.rows, t) + {op};
  }

  predicate SameQueuesAndEvents(db: Db, db': Db) {
    && db'.stream == db.stream && db'.cursors == db.cursors && db'.flows == db.flows && db'.events == db.events
    && db'.limits == db.limits && db'.now == db.now
  }

  // ----- workerPoll -----

  /** A message whose operation this tenant's poll could claim, were it below its limit. */
  predicate Wanted(db: Db, tenant: string, k: nat)
    requires k < |db.stream|
  {
    ForPrivate(db.stream[k], tenant) && Selected(db, db.stream[k].env.op, Some(tenant))
  }

  /** The first claimable message of the batch, or its end. */
  function FirstWanted(db: Db, tenant: string, i: nat, end: nat): (k: nat)
    requires i <= end <= |db.stream|
    ensures i <= k <= end
    ensures forall j :: i <= j < k ==> !Wanted(db, tenant, j)
    ensures k < end ==> Wanted(db, tenant, k)
    decreases end - i
  {
    if i == end || Wanted(db, tenant, i) then i else FirstWanted(db, tenant, i + 1, end)
  }

  function MoveCursor(db: Db, tenant: string, from: nat, to: nat): Db {
    if to == from then db else db.(cursors := db.cursors[tenant := to])
  }

  datatype PollReply = NoWorkerId | NoContent | Work(env: Envelope)

  /** Where a scan of messages i..end leaves the tables: the first claimable one claimed, or the cursor before it. */
  function ScanDb(db: Db, tenant: string, worker: string, i: nat, end: nat): Db
    requires i <= end <= |db.stream| && db.history.Keys == db.rows.Keys
  {
    var k := FirstWanted(db, tenant, i, end);
    if k == end || !BelowLimit(db, tenant) then MoveCursor(db, tenant, i, k)
    else MoveCursor(Write(db, db.stream[k].env.op, Claim(worker, db.now + 45)), tenant, i, k + 1)
  }

  /** One poll: claim the first claimable message of the batch, or stop before it when the tenant is at its limit. */
  function PollDb(db: Db, tenant: string, worker: string): (Db, PollReply)
    requires WellFormed(db)
  {
    var c := CursorOf(db, tenant);
    if worker == "" then (db, NoWorkerId)
    else if c >= |db.stream| then (db, NoContent)
    else
      var end := BatchEnd(db, c);
      var k := FirstWanted(db, tenant, c, end);
      (ScanDb(db, tenant, worker, c, end),
       if k == end || !BelowLimit(db, tenant) then NoContent else Work(db.stream[k].env))
  }

  /** A message nobody wants can be passed first, or by the scan: the outcome is the same. */
  lemma ScanPasses(db: Db, tenant: string, worker: string, i: nat, end: nat)
    requires i < end <= |db.stream| && db.history.Keys == db.rows.Keys && !Wanted(db, tenant, i)
    ensures
      var db1 := MoveCursor(db, tenant, i, i + 1);
      ScanDb(db1, tenant, worker, i + 1, end) == ScanDb(db, tenant, worker, i, end)
  {
    var db1 := MoveCursor(db, tenant, i, i + 1);
    SameScan(db, db1, tenant, i + 1, end);
    var k := FirstWanted(db, tenant, i, end);
    if k == end || !BelowLimit(db, tenant) {
      MovedTwice(db, tenant, i, k);
    } else {
      var claimed := Write(db, db.stream[k].env.op, Claim(worker, db.now + 45));
      assert Write(db1, db.stream[k].env.op, Claim(worker, db.now + 45)) == MoveCursor(claimed, tenant, i, i + 1);
      MovedTwice(claimed, tenant, i, k + 1);
    }
  }

  lemma MovedTwice(db: Db, tenant: string, i: nat, k: nat)
    requires i < k
    ensures MoveCursor(MoveCursor(db, tenant, i, i + 1), tenant, i + 1, k) == MoveCursor(db, tenant, i, k)
  {
    var db1 := MoveCursor(db, tenant, i, i + 1);
    assert db1.cursors[tenant := k] == db.cursors[tenant := k];
  }

  /** The scan does not look at cursors. */
  lemma {:induction false} SameScan(db: Db, db': Db, tenant: string, i: nat, end: nat)
    requires db' == db.(cursors := db'.cursors) && i <= end <= |db.stream|
    ensures FirstWanted(db', tenant, i, end) == FirstWanted(db, tenant, i, end)
    decreases end - i
  {
    if i < end {
      SameScan(db, db', tenant, i + 1, end);
    }
  }

  /** One turn of the scan; None means go on to the next message. */
  function Turn(db: Db, tenant: string, worker: string, i: nat): (Db, Option<PollReply>)
    requires WellFormed(db) && i < |db.stream|
  {
    var passed := db.(cursors := db.cursors[tenant := i + 1]);
    if !Wanted(db, tenant, i) then (passed, None)
    else if !BelowLimit(db, tenant) then (db, Some(NoContent))
    else
      var env := db.stream[i].env;
      (Write(passed, env.op, Claim(worker, db.now + 45)), Some(Work(env)))
  }

  /** The turn at message i, once everything before it was passed, goes on or decides the poll. */
  lemma TurnDecides(db: Db, tenant: string, worker: string, i: nat, end: nat)
    requires WellFormed(db) && worker != "" && CursorOf(db, tenant) <= i < end <= |db.stream|
    requires end == BatchEnd(db, CursorOf(db, tenant))
    requires FirstWanted(db, tenant, i, end) == FirstWanted(db, tenant, CursorOf(db, tenant), end)
    ensures
      var c := CursorOf(db, tenant);
      var t := Turn(MoveCursor(db, tenant, c, i), tenant, worker, i);
      if t.1.None? then
        && t.0 == MoveCursor(db, tenant, c, i + 1)
        && FirstWanted(db, tenant, i + 1, end) == FirstWanted(db, tenant, i, end)
      else
        (t.0, t.1.value) == PollDb(db, tenant, worker)
  {
    var c := CursorOf(db, tenant);
    TurnIgnoresCursor(db, MoveCursor(db, tenant, c, i), tenant, worker, i);
    if Wanted(db, tenant, i) {
      TurnStops(db, tenant, worker, i, end);
    }
  }

  /** At the first claimable message the scan claims it, or stays before it. */
  lemma TurnStops(db: Db, tenant: string, worker: string, i: nat, end: nat)
    requires WellFormed(db) && worker != "" && CursorOf(db, tenant) <= i < end <= |db.stream|
    requires end == BatchEnd(db, CursorOf(db, tenant))
    requires i == FirstWanted(db, tenant, CursorOf(db, tenant), end) && Wanted(db, tenant, i)
    ensures
      var c, t := CursorOf(db, tenant), Turn(db, tenant, worker, i);
      && t.1.Some?
      && PollDb(db, tenant, worker) == (if t.1 == Some(NoContent) then MoveCursor(db, tenant, c, i) else t.0, t.1.value)
  {
  }

  lemma TurnIgnoresCursor(db: Db, moved: Db, tenant: string, worker: string, i: nat)
    requires WellFormed(db) && i < |db.stream| && moved == db.(cursors := moved.cursors)
    requires moved.cursors[tenant := i + 1] == db.cursors[tenant := i + 1]
    ensures Turn(moved, tenant, worker, i).1 == Turn(db, tenant, worker, i).1
    ensures
      Turn(moved, tenant, worker, i).0
      == if Turn(db, tenant, worker, i).1 == Some(NoContent) then moved else Turn(db, tenant, worker, i).0
  {
  }

  // ----- workerComplete, workerFail, complete, fail -----

  predicate Owned(db: Db, op: string, route: Option<string>, worker: string) {
    op in db.rows && op in db.history && OfTenant(db.rows[op], route) && OwnedBy(db.rows[op], worker)
  }

  function CompleteDb(db: Db, op: string, route: Option<string>, worker: string): Db {
    if !Owned(db, op, route, worker) then db
    else
      var db1 := Write(db, op, Complete(worker));
      if route.None? then db1 else InsertEvent(db1, EventKey(op, SucceededEvent, db.rows[op].attempt), route.value)
  }

  /**
   A holder's completion succeeds its operation, releases the lease, and on the private route records one
   event of the attempt.
   */
  lemma CompleteOutcome(db: Db, op: string, route: Option<string>, worker: string)
    requires Owned(db, op, route, worker)
    ensures
      var r, db' := db.rows[op], CompleteDb(db, op, route, worker);
      && db'.rows.Keys == db.rows.Keys && (forall o :: o in db.rows && o != op ==> db'.rows[o] == db.rows[o])
      && db'.rows[op].status == Succeeded && db'.rows[op].attempt == r.attempt && db'.rows[op].version == r.version + 1
      && db'.rows[op].owner == None && db'.rows[op].expires == None
      && db'.events.Keys == db.events.Keys + (if route.None? then {} else {EventKey(op, SucceededEvent, r.attempt)})
      && (forall k :: k in db.events ==> db'.events[k] == db.events[k])
      && db'.flows == db.flows && db'.stream == db.stream && db'.cursors == db.cursors
  {
  }

  /** 45 more seconds on the private route, 30 on the other, for the holder of the lease. */
  function HeartbeatDb(db: Db, op: string, route: Option<string>, worker: string): Db {
    if Owned(db, op, route, worker) then Write(db, op, Heartbeat(worker, db.now + if route.Some? then 45 else 30))
    else db
  }

  function FailDb(db: Db, op: string, route: Option<string>, worker: string, retryable: bool): Db {
    if !Owned(db, op, route, worker) then db
    else
      var r := db.rows[op];
      var to := FailTarget(retryable, r.attempt, r.maxAttempts);
      FollowUpDb(Write(db, op, Fail(worker, to)), op, r, to, route)
  }

  /** What comes after the UPDATE that closed `r`: on the private route its event, and its workflow if it retries. */
  function FollowUpDb(db: Db, op: string, r: Row, to: Status, route: Option<string>): Db {
    var db1 := if route.None? then db else InsertEvent(db, EventKey(op, FailKind(to), r.attempt), route.value);
    if to != Retrying then db1
    else RunWorkflow(db1, RetryFlow(op, r.attempt), EnvelopeOf(op, r), db1.now + Delay(r.attempt))
  }

  /** A failure report of the lease holder: the operation retries exactly when asked to and within budget. */
  lemma FailOutcome(db: Db, op: string, route: Option<string>, worker: string, retryable: bool)
    requires Owned(db, op, route, worker)
    ensures
      var r, db' := db.rows[op], FailDb(db, op, route, worker, retryable);
      && op in db'.rows
      && db'.rows[op].status == (if retryable && r.attempt < r.maxAttempts then Retrying else DeadLettered)
      && db'.rows[op].attempt == r.attempt && db'.rows[op].version == r.version + 1
      && db'.rows[op].owner == None && db'.rows[op].expires == None
      && db'.rows.Keys == db.rows.Keys && (forall o :: o in db.rows && o != op ==> db'.rows[o] == db.rows[o])
  {
  }

  /**
   It starts the workflow of its attempt, if that id is unused, exactly when it retries, and a private one
   records its event.
   */
  lemma FailTrail(db: Db, op: string, route: Option<string>, worker: string, retryable: bool)
    requires Owned(db, op, route, worker)
    ensures
      var r, db' := db.rows[op], FailDb(db, op, route, worker, retryable);
      var again, f := retryable && r.attempt < r.maxAttempts, RetryFlow(op, r.attempt);
      var flow := Flow(EnvelopeOf(op, r), db.now + Delay(r.attempt), Waiting(false));
      var kind := if again then FailedEvent else DeadLetteredEvent;
      && db'.flows == (if again && f !in db.flows then db.flows[f := flow] else db.flows)
      && db'.events.Keys == db.events.Keys + (if route.None? then {} else {EventKey(op, kind, r.attempt)})
  {
    var r := db.rows[op];
    var to := FailTarget(retryable, r.attempt, r.maxAttempts);
    var db1 := Write(db, op, Fail(worker, to));
    assert db1.flows == db.flows && db1.events == db.events;
    var db2 := if route.None? then db1 else InsertEvent(db1, EventKey(op, FailKind(to), r.attempt), route.value);
    assert db2.flows == db.flows;
  }

  // ----- reapExpiredLeaseBatch -----

  function ReapOneDb(db: Db, it: Seen): Db {
    var u := Reap(db.now, ReapTarget(it));
    if !Hits(db, it.op, u) then db
    else
      var db1 := Write(db, it.op, u);
      if u.to == DeadLettered then InsertEvent(db1, EventKey(it.op, DeadLetteredEvent, it.attempt), it.env.tenant)
      else RunWorkflow(db1, RecoveryFlow(it.op, it.attempt), it.env, db.now + 2)
  }

  function ReapDb(db: Db, items: seq<Seen>): Db {
    if items == [] then db else ReapOneDb(ReapDb(db, items[..|items| - 1]), items[|items| - 1])
  }

  predicate SeenNow(db: Db, it: Seen) {
    Expired(db, it.op) && it.op in db.history && SameLease(db.rows[it.op], it)
  }

  predicate Distinct(items: seq<Seen>) {
    forall i, j :: 0 <= i < j < |items| ==> items[i].op != items[j].op
  }

  /** The row is closed as its budget says, and its event recorded or its workflow started. */
  predicate ReapedAs(db: Db, db': Db, it: Seen) {
    var u := Reap(db.now, if it.attempt >= it.maxAttempts then DeadLettered else Retrying);
    && Hits(db, it.op, u) && it.op in db'.rows
    && db'.rows[it.op] == Apply(db.rows[it.op], u)
    && (u.to == DeadLettered ==> EventKey(it.op, DeadLetteredEvent, it.attempt) in db'.events)
    && (u.to == Retrying ==> RecoveryFlow(it.op, it.attempt) in db'.flows)
  }

  /** An uninterrupted reap leaves every operation outside its batch alone. */
  lemma {:induction false} ReapFrame(db: Db, items: seq<Seen>, o: string)
    requires forall i :: 0 <= i < |items| ==> items[i].op != o
    ensures ReapDb(db, items).now == db.now
    ensures o in ReapDb(db, items).rows <==> o in db.rows
    ensures o in ReapDb(db, items).history <==> o in db.history
    ensures o in db.rows ==> ReapDb(db, items).rows[o] == db.rows[o]
  {
    if items != [] {
      ReapFrame(db, items[..|items| - 1], o);
    }
  }

  lemma ReapOneKeeps(db: Db, db1: Db, it: Seen, last: Seen)
    requires ReapedAs(db, db1, it) && last.op != it.op
    ensures ReapedAs(db, ReapOneDb(db1, last), it)
  {
  }

  /** It closes every operation of its batch. */
  lemma {:induction false} ReapClosesBatch(db: Db, items: seq<Seen>, i: nat)
    requires i < |items| && Distinct(items) && SeenNow(db, items[i])
    ensures ReapedAs(db, ReapDb(db, items), items[i])
  {
    var n := |items| - 1;
    if i == n {
      ReapFrame(db, items[..n], items[n].op);
    } else {
      assert Distinct(items[..n]);
      ReapClosesBatch(db, items[..n], i);
      ReapOneKeeps(db, ReapDb(db, items[..n]), items[i], items[n]);
    }
  }

  lemma ReapClosesAll(db: Db, items: seq<Seen>)
    requires ReapBatch(db, items) && db.history.Keys == db.rows.Keys
    ensures forall i :: 0 <= i < |items| ==> ReapedAs(db, ReapDb(db, items), items[i])
  {
    forall i | 0 <= i < |items|
      ensures ReapedAs(db, ReapDb(db, items), items[i])
    {
      ReapClosesBatch(db, items, i);
    }
  }

  /** Expired leases that the SELECT prefers to this one's. */
  function Older(db: Db, o: string): set<string>
    requires Expired(db, o)
  {
    set p | p in db.rows && p != o && Expired(db, p) && db.rows[p].expires.value <= db.rows[o].expires.value
  }

  function Ops(items: seq<Seen>): set<string> {
    set i | 0 <= i < |items| :: items[i].op
  }

  lemma {:induction false} OpsDistinct(items: seq<Seen>)
    requires Distinct(items)
    ensures |Ops(items)| == |items|
  {
    if items != [] {
      var n := |items| - 1;
      OpsDistinct(items[..n]);
      assert Ops(items) == Ops(items[..n]) + {items[n].op};
      assert items[n].op !in Ops(items[..n]);
    }
  }

  /** With fewer than 50 leases that expired no later, an expired lease is in every batch the SELECT can answer. */
  lemma ExpiredIsPicked(db: Db, items: seq<Seen>, o: string)
    requires ReapBatch(db, items) && Expired(db, o) && |Older(db, o)| < BATCH
    ensures exists i :: 0 <= i < |items| && items[i].op == o
  {
    if forall i :: 0 <= i < |items| ==> items[i].op != o {
      forall p | p in Ops(items)
        ensures p in Older(db, o)
      {
        var i :| 0 <= i < |items| && items[i].op == p;
        assert items[i].expires <= items[BATCH - 1].expires;
      }
      OpsDistinct(items);
      SubsetSize(Ops(items), Older(db, o));
    }
  }

  /** So an uninterrupted reap closes it, whatever else has expired. */
  lemma ReapClosesOldest(db: Db, items: seq<Seen>, o: string)
    requires ReapBatch(db, items) && db.history.Keys == db.rows.Keys && Expired(db, o) && |Older(db, o)| < BATCH
    ensures o in ReapDb(db, items).rows && ReapDb(db, items).rows[o].status in {Retrying, DeadLettered}
    ensures ReapDb(db, items).rows[o].owner == None && ReapDb(db, items).rows[o].attempt == db.rows[o].attempt
  {
    ExpiredIsPicked(db, items, o);
    var i :| 0 <= i < |items| && items[i].op == o;
    ReapClosesBatch(db, items, i);
    ReapedIsClosed(db, ReapDb(db, items), items[i]);
  }

  lemma ReapedIsClosed(db: Db, db': Db, it: Seen)
    requires ReapedAs(db, db', it)
    ensures it.op in db.rows && db'.rows[it.op].status in {Retrying, DeadLettered}
    ensures db'.rows[it.op].owner == None && db'.rows[it.op].attempt == db.rows[it.op].attempt
  {
  }

  // ----- create, cancel, redrive -----

  datatype CreateReply = Rejected | Accepted(op: string) | Existing(op: string)

  datatype CreateInput = CreateInput(taskType: string, targetUrl: string, executionMode: string, maxAttempts: int)

  /** max_attempts 0 stands for 3; anything else outside 1..10 is refused. */
  function Attempts(requested: int): int {
    if requested == 0 then 3 else requested
  }

  /** No execution mode stands for PRIVATE; one that is neither PRIVATE nor CLOUD is refused. */
  function ModeOf(executionMode: string): Option<Mode> {
    if executionMode == "" || executionMode == "PRIVATE" then Some(Private)
    else if executionMode == "CLOUD" then Some(Cloud)
    else None
  }

  predicate Acceptable(input: CreateInput, key: string) {
    && input.taskType != "" && input.targetUrl != ""
    && ("http://" <= input.targetUrl || "https://" <= input.targetUrl)
    && 1 <= Attempts(input.maxAttempts) <= 10 && ModeOf(input.executionMode).Some?
    && 1 <= |key| <= 200
  }

  /** A new key inserts one PENDING row and starts its workflow; a known key changes nothing and names its row. */
  ghost predicate Created(db: Db, db': Db, id: string, tenant: string, key: string,
                          input: CreateInput, notBefore: int, reply: CreateReply) {
    if !Acceptable(input, key) then reply == Rejected && db' == db
    else if exists o :: HasKey(db, o, tenant, key) then
      reply.Existing? && HasKey(db, reply.op, tenant, key) && db' == db
    else
      var mode := ModeOf(input.executionMode).value;
      && reply == Accepted(id)
      && db' == RunWorkflow(Insert(db, id, NewRow(tenant, mode, key, Attempts(input.maxAttempts))),
                            OperationFlow(id), Envelope(id, tenant, mode), notBefore)
  }

  datatype CancelReply = Stopped | NotFound | NotCancellable

  predicate OfTenantNow(db: Db, op: string, tenant: string) {
    op in db.rows && op in db.history && db.rows[op].tenant == tenant
  }

  function CancelDb(db: Db, op: string, tenant: string): (Db, CancelReply) {
    if !OfTenantNow(db, op, tenant) then (db, NotFound)
    else if IsTerminal(db.rows[op].status) then (db, NotCancellable)
    else (Write(db, op, Cancel), Stopped)
  }

  /**
   A cancel that stops its operation makes it final, takes the lease from whoever held it, and touches
   nothing else.
   */
  lemma CancelOutcome(db: Db, op: string, tenant: string)
    requires OfTenantNow(db, op, tenant) && !IsTerminal(db.rows[op].status)
    ensures
      var r, db' := db.rows[op], CancelDb(db, op, tenant).0;
      && db'.rows.Keys == db.rows.Keys && (forall o :: o in db.rows && o != op ==> db'.rows[o] == db.rows[o])
      && db'.rows[op].status == Cancelled && db'.rows[op].attempt == r.attempt && db'.rows[op].version == r.version + 1
      && SameQueuesAndEvents(db, db')
    ensures forall u: Update :: !Hits(CancelDb(db, op, tenant).0, op, u)
    ensures forall worker, route :: !Owned(CancelDb(db, op, tenant).0, op, route, worker)
  {
  }

  function RedriveDb(db: Db, op: string, tenant: string, nonce: string): Db {
    if OfTenantNow(db, op, tenant) && Matches(db.rows[op], Redrive) then
      RunWorkflow(Write(db, op, Redrive), RedriveFlow(op, nonce), EnvelopeOf(op, db.rows[op]), db.now)
    else db
  }

  /** A redrive gives back the whole budget and starts a workflow that is due at once, under its fresh id. */
  lemma RedriveOutcome(db: Db, op: string, tenant: string, nonce: string)
    requires OfTenantNow(db, op, tenant) && db.rows[op].status == DeadLettered && RedriveFlow(op, nonce) !in db.flows
    ensures
      var r, db' := db.rows[op], RedriveDb(db, op, tenant, nonce);
      && db'.rows.Keys == db.rows.Keys && (forall o :: o in db.rows && o != op ==> db'.rows[o] == db.rows[o])
      && db'.rows[op].status == Retrying && db'.rows[op].attempt == 0 && db'.rows[op].version == r.version + 1
      && db'.rows[op].maxAttempts == r.maxAttempts
      && db'.flows == db.flows[RedriveFlow(op, nonce) := Flow(EnvelopeOf(op, r), db.now, Waiting(false))]
      && db'.stream == db.stream && db'.cursors == db.cursors && db'.events == db.events
  {
  }
}
