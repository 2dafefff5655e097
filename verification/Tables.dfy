/**
 Everything the operations service shares between requests: the operations table, the Redis
 stream and cursors, DBOS workflows, and the insert-only columns of the event outbox.
 Stream ids are positions: message k has id k+1, and cursor c has passed the first c messages.
 */
module Tables {
  import opened Domain
  import opened Rows

  datatype Envelope = Envelope(op: string, tenant: string, mode: Mode)

  /** A stream message; Junk carries no envelope that decodes. */
  datatype Message = Junk | Job(env: Envelope)

  /** Workflow ids: operation:<id>, retry:<id>:<attempt>, lease-recovery:<id>:<attempt>, redrive:<id>:<uuid>. */
  datatype FlowId =
    | OperationFlow(op: string)
    | RetryFlow(op: string, attempt: int)
    | RecoveryFlow(op: string, attempt: int)
    | RedriveFlow(op: string, nonce: string)

  /**
   Where a queueOperationWorkflow stands. `owes` remembers, across a crash, that the step has moved
   the row to QUEUED and has not added its message since.
   */
  datatype Phase =
    | Waiting(owes: bool)
    | Checking(owes: bool)
    | Logging
    | Publishing
    | Returning
    | Done

  datatype Flow = Flow(env: Envelope, notBefore: int, phase: Phase)

  predicate Owes(p: Phase) {
    match p
    case Waiting(owes) => owes
    case Checking(owes) => owes
    case Logging => true
    case Publishing => true
    case Returning => false
    case Done => false
  }

  datatype EventKind = SucceededEvent | FailedEvent | DeadLetteredEvent

  /** <operation id>:<event type>:<attempt> */
  datatype EventKey = EventKey(op: string, kind: EventKind, attempt: int)

  datatype Event = Event(tenant: string, units: nat)

  datatype Db = Db(
    now: int,
    limits: map<string, int>,
    rows: map<string, Row>,
    history: map<string, seq<Change>>,
    stream: seq<Message>,
    cursors: map<string, nat>,
    flows: map<FlowId, Flow>,
    events: map<EventKey, Event>)

  // ----- Statements -----

  predicate Hits(db: Db, o: string, u: Update) {
    o in db.rows && o in db.history && Matches(db.rows[o], u)
  }

  function Write(db: Db, o: string, u: Update): Db
    requires Hits(db, o, u)
  {
    db.(rows := db.rows[o := Apply(db.rows[o], u)],
        history := db.history[o := Record(db.history[o], db.rows[o], u)])
  }

  function Insert(db: Db, o: string, r: Row): Db {
    db.(rows := db.rows[o := r], history := db.history[o := []])
  }

  /** INSERT INTO event_outbox ... ON CONFLICT(event_key) DO NOTHING */
  function InsertEvent(db: Db, key: EventKey, tenant: string): Db {
    if key in db.events then db else db.(events := db.events[key := Event(tenant, 1)])
  }

  /** dbos.RunWorkflow: an id that was used before does not run again. */
  function RunWorkflow(db: Db, id: FlowId, env: Envelope, notBefore: int): Db {
    if id in db.flows then db else db.(flows := db.flows[id := Flow(env, notBefore, Waiting(false))])
  }

  function SetPhase(db: Db, id: FlowId, p: Phase): Db
    requires id in db.flows
  {
    db.(flows := db.flows[id := db.flows[id].(phase := p)])
  }

  function CursorOf(db: Db, tenant: string): nat {
    if tenant in db.cursors then db.cursors[tenant] else 0
  }

  function RunningSet(rows: map<string, Row>, tenant: string): set<string> {
    set o | o in rows && rows[o].tenant == tenant && rows[o].status == Running
  }

  function RunningCount(rows: map<string, Row>, tenant: string): nat {
    |RunningSet(rows, tenant)|
  }

  function EnvelopeOf(o: string, r: Row): Envelope {
    Envelope(o, r.tenant, r.mode)
  }

  predicate OfTenant(r: Row, tenant: Option<string>) {
    tenant.None? || r.tenant == tenant.value
  }

  /** What a claim's SELECT finds; `expected` is the tenant a private poll insists on. */
  predicate Selected(db: Db, op: string, expected: Option<string>) {
    op in db.rows && OfTenant(db.rows[op], expected) && Claimable(db.rows[op].status)
  }

  predicate HasKey(db: Db, o: string, tenant: string, key: string) {
    o in db.rows && db.rows[o].tenant == tenant && db.rows[o].key == key
  }

  predicate For(m: Message, tenant: string, mode: Mode) {
    m.Job? && m.env.tenant == tenant && m.env.mode == mode
  }

  /** A message this tenant's private poll does not skip outright. */
  predicate ForPrivate(m: Message, tenant: string) {
    For(m, tenant, Private)
  }

  const BATCH := 50

  function BatchEnd(db: Db, cursor: nat): nat {
    if cursor + BATCH <= |db.stream| then cursor + BATCH
    else if cursor <= |db.stream| then |db.stream|
    else cursor
  }

  /** What the reaper's SELECT read of one expired row. */
  datatype Seen = Seen(op: string, env: Envelope, attempt: int, maxAttempts: int, owner: string, expires: int,
      version: int)

  predicate Expired(db: Db, o: string) {
    o in db.rows && db.rows[o].status == Running && db.rows[o].expires.Some? && db.rows[o].expires.value < db.now
  }

  predicate SameLease(r: Row, it: Seen) {
    && r.status == Running && r.owner == Some(it.owner) && r.expires == Some(it.expires)
    && r.attempt == it.attempt && r.maxAttempts == it.maxAttempts && r.version == it.version
  }

  /** SELECT ... WHERE status='RUNNING' AND lease_expires_at<now() ORDER BY lease_expires_at LIMIT 50 */
  ghost predicate ReapBatch(db: Db, items: seq<Seen>) {
    && |items| <= BATCH
    && (forall i :: 0 <= i < |items| ==>
          Expired(db, items[i].op) && SameLease(db.rows[items[i].op], items[i])
          && items[i].env == EnvelopeOf(items[i].op, db.rows[items[i].op]))
    && (forall i, j :: 0 <= i < j < |items| ==> items[i].op != items[j].op && items[i].expires <= items[j].expires)
    && (forall o :: Expired(db, o) ==>
          (exists i :: 0 <= i < |items| && items[i].op == o)
          || (|items| == BATCH && items[BATCH - 1].expires <= db.rows[o].expires.value))
  }

  function ReapTarget(it: Seen): Status {
    if it.attempt >= it.maxAttempts then DeadLettered else Retrying
  }

  function FailTarget(retryable: bool, attempt: int, maxAttempts: int): Status {
    if retryable && attempt < maxAttempts then Retrying else DeadLettered
  }

  function FailKind(to: Status): EventKind {
    if to == DeadLettered then DeadLetteredEvent else FailedEvent
  }
}
