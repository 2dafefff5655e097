/**
 The handlers of cmd/operations/main.go, statement by statement, over the tables they update in place.
 A request here runs alone; Protocol.dfy interleaves them.
 */
module Service {
  import opened Domain
  import opened Rows
  import opened Tables
  import opened Handlers

  class OperationsService {
    var now: int
    var limits: map<string, int>
    var rows: map<string, Row>
    ghost var history: map<string, seq<Change>>
    var stream: seq<Message>
    var cursors: map<string, nat>
    var flows: map<FlowId, Flow>
    var events: map<EventKey, Event>

    ghost function View(): Db
      reads this
    {
      Db(now, limits, rows, history, stream, cursors, flows, events)
    }

    constructor (limits: map<string, int>)
      ensures View() == Db(0, limits, map[], map[], [], map[], map[], map[]) && WellFormed(View())
    {
      this.now, this.limits, this.rows, this.history := 0, limits, map[], map[];
      stream, cursors, flows, events := [], map[], map[], map[];
    }

    /** One guarded UPDATE; the caller has checked the tenant predicate. */
    method Exec(o: string, u: Update) returns (affected: nat)
      requires WellFormed(View())
      modifies `rows, `history
      ensures WellFormed(View())
      ensures affected == (if Hits(old(View()), o, u) then 1 else 0)
      ensures View() == if Hits(old(View()), o, u) then Write(old(View()), o, u) else old(View())
    {
      if o in rows && Matches(rows[o], u) {
        history := history[o := Record(history[o], rows[o], u)];
        rows := rows[o := Apply(rows[o], u)];
        affected := 1;
      } else {
        affected := 0;
      }
    }

    method Emit(key: EventKey, tenant: string)
      modifies `events
      ensures View() == InsertEvent(old(View()), key, tenant)
    {
      if key !in events {
        events := events[key := Event(tenant, 1)];
      }
    }

    method StartWorkflow(id: FlowId, env: Envelope, notBefore: int)
      modifies `flows
      ensures View() == RunWorkflow(old(View()), id, env, notBefore)
    {
      if id !in flows {
        flows := flows[id := Flow(env, notBefore, Waiting(false))];
      }
    }

    // ----- enqueueOperationStep -----

    /** One run of the step, which may die on the way. */
    method EnqueueOperationStep(env: Envelope, reach: Reach)
      requires WellFormed(View()) && env.op in rows
      modifies `rows, `history, `stream
      ensures WellFormed(View())
      ensures View() == RunStepDb(old(View()), env, reach)
    {
      if reach == DiesAtStart {
        return;
      }
      var affected := Exec(env.op, Enqueue);
      if reach == DiesAfterUpdate {
        return;
      }
      if affected == 0 {
        var status := rows[env.op].status;
        if status != Queued {
          return;
        }
      }
      if reach == DiesAfterLog {
        return;
      }
      stream := stream + [Job(env)];
    }

    /** The durable workflow: its step runs again after every crash. */
    method QueueOperationWorkflow(env: Envelope, crashes: seq<Reach>)
      requires WellFormed(View()) && env.op in rows
      modifies `rows, `history, `stream
      ensures View() == EnqueueDb(old(View()), env, crashes)
    {
      var i := 0;
      while i < |crashes|
        invariant 0 <= i <= |crashes|
        invariant WellFormed(View()) && env.op in rows
        invariant EnqueueDb(View(), env, crashes[i..]) == EnqueueDb(old(View()), env, crashes)
      {
        assert crashes[i..][1..] == crashes[i + 1..];
        EnqueueOperationStep(env, crashes[i]);
        i := i + 1;
      }
      EnqueueOperationStep(env, Finishes);
    }

    // ----- claimOperation, workerPoll -----

    method ClaimOperation(op: string, expected: Option<string>, worker: string, seconds: int) returns (claimed: bool)
      requires WellFormed(View())
      modifies `rows, `history
      ensures WellFormed(View())
      ensures claimed <==> ClaimSucceeds(old(View()), op, expected)
      ensures View() == ClaimDb(old(View()), op, expected, worker, seconds)
    {
      if op !in rows || !OfTenant(rows[op], expected) || !Claimable(rows[op].status) {
        return false;
      }
      var tenant := rows[op].tenant;
      var limit := limits[tenant];
      var running := RunningCount(rows, tenant);
      if running >= limit {
        return false;
      }
      var affected := Exec(op, Claim(worker, now + seconds));
      claimed := affected == 1;
    }

    /** The claim of one message and, when it fails, the status check that decides whether to pass the message. */
    method ClaimOrCheck(op: string, tenant: string, worker: string) returns (claimed: bool, passable: bool)
      requires WellFormed(View())
      modifies `rows, `history
      ensures WellFormed(View())
      ensures claimed <==> Selected(old(View()), op, Some(tenant)) && BelowLimit(old(View()), tenant)
      ensures View() == if claimed then Write(old(View()), op, Claim(worker, now + 45)) else old(View())
      ensures !claimed ==> (passable <==> !Selected(old(View()), op, Some(tenant)))
    {
      passable := false;
      claimed := ClaimOperation(op, Some(tenant), worker, 45);
      if !claimed {
        passable := op !in rows || rows[op].tenant != tenant || !CanTransition(rows[op].status, Running);
        ClaimableExactly(if op in rows then rows[op].status else Failed);
      }
    }

    method WorkerPoll(tenant: string, worker: string) returns (reply: PollReply)
      requires WellFormed(View())
      modifies `rows, `history, `cursors
      ensures (View(), reply) == PollDb(old(View()), tenant, worker)
    {
      if worker == "" {
        return NoWorkerId;
      }
      var cursor := if tenant in cursors then cursors[tenant] else 0;
      if cursor >= |stream| {
        return NoContent;
      }
      reply := ScanBatch(tenant, worker, cursor);
    }

    /** One turn of the loop over the batch; None means go on to the next message. */
    method TryMessage(tenant: string, worker: string, i: nat) returns (reply: Option<PollReply>)
      requires WellFormed(View()) && i < |stream|
      modifies `rows, `history, `cursors
      ensures (View(), reply) == Turn(old(View()), tenant, worker, i)
    {
      var message := stream[i];
      reply := None;
      if ForPrivate(message, tenant) {
        var claimed, passable := ClaimOrCheck(message.env.op, tenant, worker);
        if claimed {
          reply := Some(Work(message.env));
        } else if !passable {
          return Some(NoContent);
        }
      }
      cursors := cursors[tenant := i + 1];
    }

    method ScanBatch(tenant: string, worker: string, cursor: nat) returns (reply: PollReply)
      requires WellFormed(View()) && worker != "" && cursor == CursorOf(View(), tenant) < |stream|
      modifies `rows, `history, `cursors
      ensures (View(), reply) == PollDb(old(View()), tenant, worker)
    {
      var end := if cursor + BATCH <= |stream| then cursor + BATCH else |stream|;
      ghost var db := View();
      var i := cursor;
      while i < end
        invariant cursor <= i <= end
        invariant FirstWanted(db, tenant, i, end) == FirstWanted(db, tenant, cursor, end)
        invariant View() == MoveCursor(db, tenant, cursor, i)
      {
        TurnDecides(db, tenant, worker, i, end);
        var stop := TryMessage(tenant, worker, i);
        if stop.Some? {
          return stop.value;
        }
        i := i + 1;
      }
      return NoContent;
    }

    // ----- reports of lease holders -----

    method WorkerHeartbeat(op: string, route: Option<string>, worker: string) returns (owned: bool)
      requires WellFormed(View())
      modifies `rows, `history
      ensures owned <==> Owned(old(View()), op, route, worker)
      ensures View() == HeartbeatDb(old(View()), op, route, worker)
    {
      if op !in rows || !OfTenant(rows[op], route) {
        return false;
      }
      var affected := Exec(op, Heartbeat(worker, now + if route.Some? then 45 else 30));
      owned := affected > 0;
    }

    method WorkerComplete(op: string, route: Option<string>, worker: string) returns (done: bool)
      requires WellFormed(View())
      modifies `rows, `history, `events
      ensures done <==> Owned(old(View()), op, route, worker)
      ensures View() == CompleteDb(old(View()), op, route, worker)
    {
      if op !in rows || !OfTenant(rows[op], route) {
        return false;
      }
      var attempt := rows[op].attempt;
      var affected := Exec(op, Complete(worker));
      if affected == 0 {
        return false;
      }
      if route.Some? {
        Emit(EventKey(op, SucceededEvent, attempt), route.value);
      }
      done := true;
    }

    method WorkerFail(op: string, route: Option<string>, worker: string, retryable: bool)
      returns (status: Option<Status>)
      requires WellFormed(View())
      modifies `rows, `history, `events, `flows
      ensures status.Some? <==> Owned(old(View()), op, route, worker)
      ensures status.Some? ==> op in rows && rows[op].status == status.value
      ensures View() == FailDb(old(View()), op, route, worker, retryable)
    {
      if op !in rows || !OfTenant(rows[op], route) || !OwnedBy(rows[op], worker) {
        return None;
      }
      var r := rows[op];
      var to := DeadLettered;
      if retryable && r.attempt < r.maxAttempts {
        to := Retrying;
      }
      var affected := Exec(op, Fail(worker, to));
      if affected == 0 {
        return None;
      }
      FollowUp(op, r, to, route);
      status := Some(to);
    }

    /** The event and the workflow of a failure report that closed `r`. */
    method FollowUp(op: string, r: Row, to: Status, route: Option<string>)
      modifies `events, `flows
      ensures View() == FollowUpDb(old(View()), op, r, to, route)
    {
      if route.Some? {
        Emit(EventKey(op, FailKind(to), r.attempt), route.value);
      }
      if to == Retrying {
        var delay := RetryDelay(r.attempt);
        StartWorkflow(RetryFlow(op, r.attempt), EnvelopeOf(op, r), now + delay);
      }
    }

    // ----- reapExpiredLeaseBatch -----

    /** `items` is what the database answers to the SELECT: up to 50 expired leases, the oldest first. */
    method ReapExpiredLeaseBatch(items: seq<Seen>)
      requires WellFormed(View()) && ReapBatch(View(), items)
      modifies `rows, `history, `events, `flows
      ensures View() == ReapDb(old(View()), items)
      ensures forall i :: 0 <= i < |items| ==> ReapedAs(old(View()), View(), items[i])
    {
      ReapClosesAll(View(), items);
      ReapItems(items);
    }

    /** The loop over the batch. */
    method ReapItems(items: seq<Seen>)
      requires WellFormed(View())
      modifies `rows, `history, `events, `flows
      ensures View() == ReapDb(old(View()), items)
    {
      for k := 0 to |items|
        invariant WellFormed(View())
        invariant View() == ReapDb(old(View()), items[..k])
      {
        assert items[..k + 1][..k] == items[..k];
        ReapItem(items[k]);
      }
      assert items[..|items|] == items;
    }

    method ReapItem(it: Seen)
      requires WellFormed(View())
      modifies `rows, `history, `events, `flows
      ensures WellFormed(View()) && View() == ReapOneDb(old(View()), it)
    {
      var target := if it.attempt >= it.maxAttempts then DeadLettered else Retrying;
      var affected := Exec(it.op, Reap(now, target));
      if affected == 1 {
        if target == DeadLettered {
          Emit(EventKey(it.op, DeadLetteredEvent, it.attempt), it.env.tenant);
        } else {
          StartWorkflow(RecoveryFlow(it.op, it.attempt), it.env, now + 2);
        }
      }
    }

    // ----- create, cancel, redrive -----

    /** From the point where a create was admitted. */
    method Create(id: string, tenant: string, key: string, input: CreateInput, notBefore: int)
      returns (reply: CreateReply)
      requires WellFormed(View()) && tenant in limits && id !in rows
      modifies `rows, `history, `flows
      ensures WellFormed(View())
      ensures Created(old(View()), View(), id, tenant, key, input, notBefore, reply)
    {
      var checked := Check(input, key);
      if checked.None? {
        return Rejected;
      }
      var (mode, budget) := checked.value;
      InsertOperation(id, tenant, key, mode, budget);
      var found :| found in rows && rows[found].tenant == tenant && rows[found].key == key;
      if found != id {
        assert HasKey(old(View()), found, tenant, key);
        return Existing(found);
      }
      StartWorkflow(OperationFlow(id), Envelope(id, tenant, mode), notBefore);
      reply := Accepted(id);
    }

    /** The checks of the request, with the defaults filled in. */
    method Check(input: CreateInput, key: string) returns (checked: Option<(Mode, int)>)
      ensures checked.Some? <==> Acceptable(input, key)
      ensures checked.Some? ==> checked.value == (ModeOf(input.executionMode).value, Attempts(input.maxAttempts))
    {
      if input.taskType == "" || input.targetUrl == "" {
        return None;
      }
      if !("http://" <= input.targetUrl) && !("https://" <= input.targetUrl) {
        return None;
      }
      var budget := input.maxAttempts;
      if budget == 0 {
        budget := 3;
      }
      if budget < 1 || budget > 10 {
        return None;
      }
      var executionMode := input.executionMode;
      if executionMode == "" {
        executionMode := "PRIVATE";
      }
      if executionMode != "PRIVATE" && executionMode != "CLOUD" {
        return None;
      }
      if key == "" || |key| > 200 {
        return None;
      }
      checked := Some((if executionMode == "PRIVATE" then Private else Cloud, budget));
    }

    /** INSERT ... ON CONFLICT(tenant_id,idempotency_key) DO NOTHING */
    method InsertOperation(id: string, tenant: string, key: string, mode: Mode, budget: int)
      requires WellFormed(View()) && id !in rows && tenant in limits
      modifies `rows, `history
      ensures WellFormed(View()) && exists o :: HasKey(View(), o, tenant, key)
      ensures
        View() == if exists o :: HasKey(old(View()), o, tenant, key) then old(View())
                  else Insert(old(View()), id, NewRow(tenant, mode, key, budget))
    {
      if o :| o in rows && rows[o].tenant == tenant && rows[o].key == key {
        assert HasKey(View(), o, tenant, key);
        return;
      }
      rows := rows[id := NewRow(tenant, mode, key, budget)];
      history := history[id := []];
      assert HasKey(View(), id, tenant, key);
    }

    method CancelOperation(op: string, tenant: string) returns (reply: CancelReply)
      requires WellFormed(View())
      modifies `rows, `history
      ensures (View(), reply) == CancelDb(old(View()), op, tenant)
    {
      if op !in rows || rows[op].tenant != tenant {
        return NotFound;
      }
      var affected := Exec(op, Cancel);
      if affected == 0 {
        return NotCancellable;
      }
      reply := Stopped;
    }

    method RedriveOperation(op: string, tenant: string, nonce: string) returns (redriven: bool)
      requires WellFormed(View())
      modifies `rows, `history, `flows
      ensures View() == RedriveDb(old(View()), op, tenant, nonce)
      ensures redriven <==> OfTenantNow(old(View()), op, tenant) && Matches(old(View()).rows[op], Redrive)
    {
      if op !in rows || rows[op].tenant != tenant {
        return false;
      }
      var env := EnvelopeOf(op, rows[op]);
      var affected := Exec(op, Redrive);
      if affected == 0 {
        return false;
      }
      StartWorkflow(RedriveFlow(op, nonce), env, now);
      redriven := true;
    }
  }
}
