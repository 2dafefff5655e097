/**
 The interleaving machine. Each request handler of cmd/operations/main.go is cut into steps of one
 SQL statement or Redis call; what a handler keeps between two of them is its Handler value. Any
 handler may move at any time, a FOR UPDATE lock is held until the transaction ends, a workflow may
 crash at any point of its step, and a handler may die (Abort) except between a committed
 transition and the RunWorkflow call that follows it.
 */
module Protocol {
  import opened Domain
  import opened Rows
  import opened Tables

  datatype PollPlace = PollPlace(tenant: string, worker: string, i: nat, end: nat)

  /** `expected` is the tenant a private poll insists on; `resume` is where that poll goes on. */
  datatype ClaimTx = ClaimTx(
    op: string, expected: Option<string>, worker: string, seconds: int, startedAt: int, resume: Option<PollPlace>)

  datatype ClaimPhase =
    | WantRow
    | HasRow(tenant: string)
    | HasTenant(tenant: string, limit: int)
    | Counted(tenant: string, limit: int, running: int)
    | Written(tenant: string)

  datatype After = Reply | MoreReaping(items: seq<Seen>, at: int)

  datatype Handler =
    | Inserted(id: string, tenant: string, key: string, notBefore: int)
    | Starting(flow: FlowId, env: Envelope, notBefore: int, after: After)
    | PollRead(tenant: string, worker: string, cursor: nat)
    | PollAt(place: PollPlace)
    | PollCheck(place: PollPlace, op: string)
    | PollSet(place: PollPlace, last: bool)
    | Claiming(c: ClaimTx, phase: ClaimPhase)
    | Failing(op: string, route: Option<string>, worker: string, retryable: bool, env: Envelope, attempt: int,
        maxAttempts: int)
    | Reaping(items: seq<Seen>, at: int)

  /** `replies` logs what create answered: (tenant, idempotency key, operation named). */
  datatype State = State(
    db: Db,
    handlers: map<nat, Handler>,
    rowLocks: map<string, nat>,
    tenantLocks: map<string, nat>,
    replies: set<(string, string, string)>)

  ghost predicate IsInit(s: State) {
    && s.db.rows == map[] && s.db.history == map[] && s.db.stream == [] && s.db.cursors == map[]
    && s.db.flows == map[] && s.db.events == map[]
    && s.handlers == map[] && s.rowLocks == map[] && s.tenantLocks == map[] && s.replies == {}
    && (forall t :: t in s.db.limits ==> s.db.limits[t] > 0)
  }

  function Put(s: State, h: nat, x: Handler): State {
    s.(handlers := s.handlers[h := x])
  }

  function Drop(s: State, h: nat): State {
    s.(handlers := s.handlers - {h})
  }

  function Unlock(s: State, h: nat): State {
    s.(rowLocks := map o | o in s.rowLocks && s.rowLocks[o] != h :: s.rowLocks[o],
       tenantLocks := map t | t in s.tenantLocks && s.tenantLocks[t] != h :: s.tenantLocks[t])
  }

  /**
   No transaction holds the row. An UPDATE whose WHERE clause matches the row waits for this; one that
   matches nothing does not.
   */
  predicate Free(s: State, o: string) {
    o !in s.rowLocks
  }

  predicate Is(s: State, h: nat) {
    h in s.handlers
  }

  // ----- create -----

  predicate KeyTaken(db: Db, tenant: string, key: string) {
    exists o :: o in db.rows && HasKey(db, o, tenant, key)
  }

  predicate CanInsert(s: State, h: nat, id: string, tenant: string, maxAttempts: int) {
    && h !in s.handlers && tenant in s.db.limits && 1 <= maxAttempts <= 10
    && id !in s.db.rows && (forall k :: k in s.handlers && s.handlers[k].Inserted? ==> s.handlers[k].id != id)
  }

  /** INSERT ... ON CONFLICT(tenant_id,idempotency_key) DO NOTHING, with a fresh uuid. */
  function DoInsert(s: State, h: nat, id: string, tenant: string, key: string, mode: Mode, maxAttempts: int,
                    notBefore: int): State {
    var s' := Put(s, h, Inserted(id, tenant, key, notBefore));
    if KeyTaken(s.db, tenant, key) then s'
    else s'.(db := Insert(s.db, id, NewRow(tenant, mode, key, maxAttempts)))
  }

  predicate CanReadBack(s: State, h: nat, found: string) {
    && Is(s, h) && s.handlers[h].Inserted?
    && HasKey(s.db, found, s.handlers[h].tenant, s.handlers[h].key)
  }

  /** SELECT by (tenant, key): a row under another id is the answer, the handler's own row is published first. */
  function DoReadBack(s: State, h: nat, found: string): State
    requires CanReadBack(s, h, found)
  {
    var x := s.handlers[h];
    var s' := s.(replies := s.replies + {(x.tenant, x.key, found)});
    if found != x.id then Drop(s', h)
    else Put(s', h, Starting(OperationFlow(found), EnvelopeOf(found, s.db.rows[found]), x.notBefore, Reply))
  }

  predicate CanStart(s: State, h: nat) {
    Is(s, h) && s.handlers[h].Starting?
  }

  function DoStart(s: State, h: nat): State
    requires CanStart(s, h)
  {
    var x := s.handlers[h];
    var s' := s.(db := RunWorkflow(s.db, x.flow, x.env, x.notBefore));
    match x.after
    case Reply => Drop(s', h)
    case MoreReaping(items, at) => Put(s', h, Reaping(items, at))
  }

  // ----- enqueueOperationStep -----

  predicate InPhase(s: State, f: FlowId) {
    f in s.db.flows && s.db.flows[f].env.op in s.db.rows && s.db.flows[f].env.op in s.db.history
  }

  predicate CanFlowUpdate(s: State, f: FlowId) {
    && InPhase(s, f) && s.db.flows[f].phase.Waiting? && s.db.flows[f].notBefore <= s.db.now
    && (Hits(s.db, s.db.flows[f].env.op, Enqueue) ==> Free(s, s.db.flows[f].env.op))
  }

  function DoFlowUpdate(s: State, f: FlowId): State
    requires CanFlowUpdate(s, f)
  {
    var flow := s.db.flows[f];
    if Hits(s.db, flow.env.op, Enqueue) then
      s.(db := SetPhase(Write(s.db, flow.env.op, Enqueue), f, Logging))
    else
      s.(db := SetPhase(s.db, f, Checking(flow.phase.owes)))
  }

  predicate CanFlowCheck(s: State, f: FlowId) {
    InPhase(s, f) && s.db.flows[f].phase.Checking?
  }

  function DoFlowCheck(s: State, f: FlowId): State
    requires CanFlowCheck(s, f)
  {
    s.(db := SetPhase(s.db, f, if s.db.rows[s.db.flows[f].env.op].status == Queued then Logging else Returning))
  }

  predicate CanFlowLog(s: State, f: FlowId) {
    InPhase(s, f) && s.db.flows[f].phase.Logging?
  }

  function DoFlowLog(s: State, f: FlowId): State
    requires CanFlowLog(s, f)
  {
    s.(db := SetPhase(s.db, f, Publishing))
  }

  predicate CanFlowPublish(s: State, f: FlowId) {
    InPhase(s, f) && s.db.flows[f].phase.Publishing?
  }

  function DoFlowPublish(s: State, f: FlowId): State
    requires CanFlowPublish(s, f)
  {
    s.(db := SetPhase(s.db.(stream := s.db.stream + [Job(s.db.flows[f].env)]), f, Returning))
  }

  predicate CanFlowFinish(s: State, f: FlowId) {
    InPhase(s, f) && s.db.flows[f].phase.Returning?
  }

  function DoFlowFinish(s: State, f: FlowId): State
    requires CanFlowFinish(s, f)
  {
    s.(db := SetPhase(s.db, f, Done))
  }

  predicate CanFlowCrash(s: State, f: FlowId) {
    InPhase(s, f) && !s.db.flows[f].phase.Done?
  }

  function DoFlowCrash(s: State, f: FlowId): State
    requires CanFlowCrash(s, f)
  {
    s.(db := SetPhase(s.db, f, Waiting(Owes(s.db.flows[f].phase))))
  }

  // ----- claimOperation -----

  predicate CanClaimBegin(s: State, h: nat) {
    h !in s.handlers
  }

  function DoClaimBegin(s: State, h: nat, op: string, worker: string, seconds: int): State {
    Put(s, h, Claiming(ClaimTx(op, None, worker, if seconds <= 0 then 30 else seconds, s.db.now, None), WantRow))
  }

  predicate InClaim(s: State, h: nat) {
    Is(s, h) && s.handlers[h].Claiming?
  }

  /** The transaction ends; a poll that ran it goes on to its cursor or to its status check. */
  function EndClaim(s: State, h: nat, c: ClaimTx, claimed: bool): State {
    var s' := Unlock(s, h);
    match c.resume
    case None => Drop(s', h)
    case Some(p) =>
      if claimed then Put(s', h, PollSet(p.(i := p.i + 1), true))
      else Put(s', h, PollCheck(p, c.op))
  }

  predicate CanLockRow(s: State, h: nat) {
    && InClaim(s, h) && s.handlers[h].phase.WantRow?
    && (Selected(s.db, s.handlers[h].c.op, s.handlers[h].c.expected) ==> Free(s, s.handlers[h].c.op))
  }

  function DoLockRow(s: State, h: nat): State
    requires CanLockRow(s, h)
  {
    var c := s.handlers[h].c;
    if Selected(s.db, c.op, c.expected) then
      Put(s, h, Claiming(c, HasRow(s.db.rows[c.op].tenant))).(rowLocks := s.rowLocks[c.op := h])
    else EndClaim(s, h, c, false)
  }

  predicate CanLockTenant(s: State, h: nat) {
    && InClaim(s, h) && s.handlers[h].phase.HasRow?
    && s.handlers[h].phase.tenant !in s.tenantLocks && s.handlers[h].phase.tenant in s.db.limits
  }

  function DoLockTenant(s: State, h: nat): State
    requires CanLockTenant(s, h)
  {
    var c, t := s.handlers[h].c, s.handlers[h].phase.tenant;
    Put(s, h, Claiming(c, HasTenant(t, s.db.limits[t]))).(tenantLocks := s.tenantLocks[t := h])
  }

  predicate CanCount(s: State, h: nat) {
    InClaim(s, h) && s.handlers[h].phase.HasTenant?
  }

  function DoCount(s: State, h: nat): State
    requires CanCount(s, h)
  {
    var c, p := s.handlers[h].c, s.handlers[h].phase;
    var running := RunningCount(s.db.rows, p.tenant);
    if running >= p.limit then EndClaim(s, h, c, false)
    else Put(s, h, Claiming(c, Counted(p.tenant, p.limit, running)))
  }

  predicate CanClaimWrite(s: State, h: nat) {
    InClaim(s, h) && s.handlers[h].phase.Counted?
  }

  /** "rows affected is one" in the claim transaction. */
  predicate ClaimHits(s: State, h: nat)
    requires CanClaimWrite(s, h)
  {
    var c := s.handlers[h].c;
    c.op in s.db.rows && s.db.rows[c.op].tenant == s.handlers[h].phase.tenant && Claimable(s.db.rows[c.op].status)
  }

  function DoClaimWrite(s: State, h: nat): State
    requires CanClaimWrite(s, h)
  {
    var c, p := s.handlers[h].c, s.handlers[h].phase;
    if ClaimHits(s, h) then Put(s, h, Claiming(c, Written(p.tenant)))
    else EndClaim(s, h, c, false)
  }

  function ClaimUpdate(c: ClaimTx): Update {
    Claim(c.worker, c.startedAt + c.seconds)
  }

  predicate CanClaimCommit(s: State, h: nat) {
    InClaim(s, h) && s.handlers[h].phase.Written? && Hits(s.db, s.handlers[h].c.op, ClaimUpdate(s.handlers[h].c))
  }

  /** The row the transaction wrote becomes visible; now() was fixed when the transaction began. */
  function DoClaimCommit(s: State, h: nat): State
    requires CanClaimCommit(s, h)
  {
    var c := s.handlers[h].c;
    EndClaim(s.(db := Write(s.db, c.op, ClaimUpdate(c))), h, c, true)
  }

  // ----- lease holders' statements, cancel, redrive -----

  predicate CanWrite(s: State, op: string, tenant: Option<string>, u: Update) {
    Hits(s.db, op, u) && OfTenant(s.db.rows[op], tenant) && Free(s, op)
  }

  function HeartbeatUpdate(s: State, tenant: Option<string>, worker: string): Update {
    Heartbeat(worker, s.db.now + if tenant.Some? then 45 else 30)
  }

  predicate CanHeartbeat(s: State, op: string, tenant: Option<string>, worker: string) {
    CanWrite(s, op, tenant, HeartbeatUpdate(s, tenant, worker))
  }

  function DoHeartbeat(s: State, op: string, tenant: Option<string>, worker: string): State
    requires CanHeartbeat(s, op, tenant, worker)
  {
    s.(db := Write(s.db, op, HeartbeatUpdate(s, tenant, worker)))
  }

  predicate CanComplete(s: State, op: string, tenant: Option<string>, worker: string) {
    CanWrite(s, op, tenant, Complete(worker))
  }

  /** The private route also records the event, in the same transaction. */
  function DoComplete(s: State, op: string, tenant: Option<string>, worker: string): State
    requires CanComplete(s, op, tenant, worker)
  {
    var db := Write(s.db, op, Complete(worker));
    s.(db := if tenant.None? then db
             else InsertEvent(db, EventKey(op, SucceededEvent, s.db.rows[op].attempt), tenant.value))
  }

  predicate CanFailRead(s: State, h: nat, op: string, tenant: Option<string>, worker: string) {
    h !in s.handlers && op in s.db.rows && OfTenant(s.db.rows[op], tenant) && OwnedBy(s.db.rows[op], worker)
  }

  function DoFailRead(s: State, h: nat, op: string, tenant: Option<string>, worker: string, retryable: bool): State
    requires CanFailRead(s, h, op, tenant, worker)
  {
    var r := s.db.rows[op];
    Put(s, h, Failing(op, tenant, worker, retryable, EnvelopeOf(op, r), r.attempt, r.maxAttempts))
  }

  function FailUpdate(x: Handler): Update
    requires x.Failing?
  {
    Fail(x.worker, FailTarget(x.retryable, x.attempt, x.maxAttempts))
  }

  predicate CanFailWrite(s: State, h: nat) {
    Is(s, h) && s.handlers[h].Failing? && (FailHits(s, s.handlers[h]) ==> Free(s, s.handlers[h].op))
  }

  predicate FailHits(s: State, x: Handler)
    requires x.Failing?
  {
    Hits(s.db, x.op, FailUpdate(x)) && OfTenant(s.db.rows[x.op], x.route)
  }

  /** UPDATE guarded by owner and status; the target status, event key and workflow id use the attempt read before. */
  function DoFailWrite(s: State, h: nat): State
    requires CanFailWrite(s, h)
  {
    var x := s.handlers[h];
    if !FailHits(s, x) then Drop(s, h)
    else
      var u := FailUpdate(x);
      var db := Write(s.db, x.op, u);
      var s' := s.(db := if x.route.None? then db
                         else InsertEvent(db, EventKey(x.op, FailKind(u.to), x.attempt), x.route.value));
      if u.to == Retrying then
        Put(s', h, Starting(RetryFlow(x.op, x.attempt), x.env, s.db.now + Delay(x.attempt), Reply))
      else Drop(s', h)
  }

  predicate CanCancel(s: State, op: string, tenant: string) {
    CanWrite(s, op, Some(tenant), Cancel)
  }

  function DoCancel(s: State, op: string, tenant: string): State
    requires CanCancel(s, op, tenant)
  {
    s.(db := Write(s.db, op, Cancel))
  }

  predicate CanRedrive(s: State, h: nat, op: string, tenant: string, nonce: string) {
    && h !in s.handlers && CanWrite(s, op, Some(tenant), Redrive)
    && RedriveFlow(op, nonce) !in s.db.flows
    && (forall k :: k in s.handlers && s.handlers[k].Starting? ==> s.handlers[k].flow != RedriveFlow(op, nonce))
  }

  function DoRedrive(s: State, h: nat, op: string, tenant: string, nonce: string): State
    requires CanRedrive(s, h, op, tenant, nonce)
  {
    Put(s.(db := Write(s.db, op, Redrive)), h,
        Starting(RedriveFlow(op, nonce), EnvelopeOf(op, s.db.rows[op]), s.db.now, Reply))
  }

  // ----- workerPoll -----

  predicate CanPollBegin(s: State, h: nat, worker: string) {
    h !in s.handlers && worker != ""
  }

  function DoPollBegin(s: State, h: nat, tenant: string, worker: string): State {
    Put(s, h, PollRead(tenant, worker, CursorOf(s.db, tenant)))
  }

  predicate CanPollFetch(s: State, h: nat) {
    Is(s, h) && s.handlers[h].PollRead?
  }

  /** XREAD COUNT 50: the batch is stream[cursor..end]; messages never change once added. */
  function DoPollFetch(s: State, h: nat): State
    requires CanPollFetch(s, h)
  {
    var x := s.handlers[h];
    var end := BatchEnd(s.db, x.cursor);
    if x.cursor == end then Drop(s, h)
    else Put(s, h, PollAt(PollPlace(x.tenant, x.worker, x.cursor, end)))
  }

  predicate CanPollLook(s: State, h: nat) {
    && Is(s, h) && s.handlers[h].PollAt?
    && (s.handlers[h].place.i < s.handlers[h].place.end ==> s.handlers[h].place.i < |s.db.stream|)
  }

  function DoPollLook(s: State, h: nat): State
    requires CanPollLook(s, h)
  {
    var p := s.handlers[h].place;
    if p.i >= p.end then Drop(s, h)
    else if ForPrivate(s.db.stream[p.i], p.tenant) then
      Put(s, h, Claiming(ClaimTx(s.db.stream[p.i].env.op, Some(p.tenant), p.worker, 45, s.db.now, Some(p)), WantRow))
    else Put(s, h, PollSet(p.(i := p.i + 1), false))
  }

  predicate CanPollStatus(s: State, h: nat) {
    Is(s, h) && s.handlers[h].PollCheck?
  }

  /** The message may be passed for good: its operation is not this tenant's or cannot become RUNNING. */
  predicate Passable(db: Db, op: string, tenant: string) {
    op !in db.rows || db.rows[op].tenant != tenant || !CanTransition(db.rows[op].status, Running)
  }

  function DoPollStatus(s: State, h: nat): State
    requires CanPollStatus(s, h)
  {
    var p := s.handlers[h].place;
    if Passable(s.db, s.handlers[h].op, p.tenant) then Put(s, h, PollSet(p.(i := p.i + 1), false))
    else Drop(s, h)
  }

  predicate CanPollStore(s: State, h: nat) {
    Is(s, h) && s.handlers[h].PollSet?
  }

  /** SET cursor, whose error the handler ignores (`stored` is false then). */
  function DoPollStore(s: State, h: nat, stored: bool): State
    requires CanPollStore(s, h)
  {
    var p := s.handlers[h].place;
    var s' := if stored then s.(db := s.db.(cursors := s.db.cursors[p.tenant := p.i])) else s;
    if s.handlers[h].last then Drop(s', h) else Put(s', h, PollAt(p))
  }

  // ----- reapExpiredLeaseBatch -----

  ghost predicate CanReapSelect(s: State, h: nat, items: seq<Seen>) {
    h !in s.handlers && ReapBatch(s.db, items)
  }

  function DoReapSelect(s: State, h: nat, items: seq<Seen>): State {
    Put(s, h, Reaping(items, s.db.now))
  }

  predicate CanReapWrite(s: State, h: nat) {
    && Is(s, h) && s.handlers[h].Reaping? && s.handlers[h].items != []
    && (Hits(s.db, s.handlers[h].items[0].op, ReapUpdate(s, s.handlers[h].items[0])) ==>
          Free(s, s.handlers[h].items[0].op))
  }

  function ReapUpdate(s: State, it: Seen): Update {
    Reap(s.db.now, ReapTarget(it))
  }

  function DoReapWrite(s: State, h: nat): State
    requires CanReapWrite(s, h)
  {
    var x := s.handlers[h];
    var it, rest := x.items[0], x.items[1..];
    if !Hits(s.db, it.op, ReapUpdate(s, it)) then Put(s, h, Reaping(rest, x.at))
    else
      var db := Write(s.db, it.op, ReapUpdate(s, it));
      if ReapTarget(it) == DeadLettered then
        var key := EventKey(it.op, DeadLetteredEvent, it.attempt);
        Put(s.(db := InsertEvent(db, key, it.env.tenant)), h, Reaping(rest, x.at))
      else
        Put(s.(db := db), h,
            Starting(RecoveryFlow(it.op, it.attempt), it.env, s.db.now + 2, MoreReaping(rest, x.at)))
  }

  predicate CanReapSkip(s: State, h: nat) {
    Is(s, h) && s.handlers[h].Reaping? && s.handlers[h].items != []
  }

  /** A statement for the row fails; the reaper leaves the row as it is and goes on to the next. */
  function DoReapSkip(s: State, h: nat): State
    requires CanReapSkip(s, h)
  {
    Put(s, h, Reaping(s.handlers[h].items[1..], s.handlers[h].at))
  }

  // ----- time and failure -----

  function DoTick(s: State, elapsed: nat): State {
    s.(db := s.db.(now := s.db.now + elapsed))
  }

  predicate CanAbort(s: State, h: nat) {
    Is(s, h) && !s.handlers[h].Inserted? && !s.handlers[h].Starting?
  }

  function DoAbort(s: State, h: nat): State {
    Drop(Unlock(s, h), h)
  }

  // ----- steps and runs -----

  datatype CreateStep =
    | StInsert(h: nat, id: string, tenant: string, key: string, mode: Mode, maxAttempts: int, notBefore: int)
    | StReadBack(h: nat, found: string)
    | StStart(h: nat)

  predicate CreateNext(s: State, step: CreateStep, s': State) {
    match step
    case StInsert(h, id, tenant, key, mode, maxAttempts, notBefore) =>
      CanInsert(s, h, id, tenant, maxAttempts) && s' == DoInsert(s, h, id, tenant, key, mode, maxAttempts, notBefore)
    case StReadBack(h, found) => CanReadBack(s, h, found) && s' == DoReadBack(s, h, found)
    case StStart(h) => CanStart(s, h) && s' == DoStart(s, h)
  }

  datatype FlowStep =
    | StFlowUpdate(f: FlowId)
    | StFlowCheck(f: FlowId)
    | StFlowLog(f: FlowId)
    | StFlowPublish(f: FlowId)
    | StFlowFinish(f: FlowId)
    | StFlowCrash(f: FlowId)

  predicate FlowNext(s: State, step: FlowStep, s': State) {
    match step
    case StFlowUpdate(f) => CanFlowUpdate(s, f) && s' == DoFlowUpdate(s, f)
    case StFlowCheck(f) => CanFlowCheck(s, f) && s' == DoFlowCheck(s, f)
    case StFlowLog(f) => CanFlowLog(s, f) && s' == DoFlowLog(s, f)
    case StFlowPublish(f) => CanFlowPublish(s, f) && s' == DoFlowPublish(s, f)
    case StFlowFinish(f) => CanFlowFinish(s, f) && s' == DoFlowFinish(s, f)
    case StFlowCrash(f) => CanFlowCrash(s, f) && s' == DoFlowCrash(s, f)
  }

  datatype ClaimStep =
    | StClaimBegin(h: nat, op: string, worker: string, seconds: int)
    | StLockRow(h: nat)
    | StLockTenant(h: nat)
    | StCount(h: nat)
    | StClaimWrite(h: nat)
    | StClaimCommit(h: nat)

  predicate ClaimNext(s: State, step: ClaimStep, s': State) {
    match step
    case StClaimBegin(h, op, worker, seconds) => CanClaimBegin(s, h) && s' == DoClaimBegin(s, h, op, worker, seconds)
    case StLockRow(h) => CanLockRow(s, h) && s' == DoLockRow(s, h)
    case StLockTenant(h) => CanLockTenant(s, h) && s' == DoLockTenant(s, h)
    case StCount(h) => CanCount(s, h) && s' == DoCount(s, h)
    case StClaimWrite(h) => CanClaimWrite(s, h) && s' == DoClaimWrite(s, h)
    case StClaimCommit(h) => CanClaimCommit(s, h) && s' == DoClaimCommit(s, h)
  }

  datatype OwnerStep =
    | StHeartbeat(op: string, route: Option<string>, worker: string)
    | StComplete(op: string, route: Option<string>, worker: string)
    | StFailRead(h: nat, op: string, route: Option<string>, worker: string, retryable: bool)
    | StFailWrite(h: nat)
    | StCancel(op: string, tenant: string)
    | StRedrive(h: nat, op: string, tenant: string, nonce: string)

  predicate OwnerNext(s: State, step: OwnerStep, s': State) {
    match step
    case StHeartbeat(op, tenant, worker) =>
      CanHeartbeat(s, op, tenant, worker) && s' == DoHeartbeat(s, op, tenant, worker)
    case StComplete(op, tenant, worker) => CanComplete(s, op, tenant, worker) && s' == DoComplete(s, op, tenant, worker)
    case StFailRead(h, op, tenant, worker, retryable) =>
      CanFailRead(s, h, op, tenant, worker) && s' == DoFailRead(s, h, op, tenant, worker, retryable)
    case StFailWrite(h) => CanFailWrite(s, h) && s' == DoFailWrite(s, h)
    case StCancel(op, tenant) => CanCancel(s, op, tenant) && s' == DoCancel(s, op, tenant)
    case StRedrive(h, op, tenant, nonce) =>
      CanRedrive(s, h, op, tenant, nonce) && s' == DoRedrive(s, h, op, tenant, nonce)
  }

  datatype PollStep =
    | StPollBegin(h: nat, tenant: string, worker: string)
    | StPollFetch(h: nat)
    | StPollLook(h: nat)
    | StPollStatus(h: nat)
    | StPollStore(h: nat, stored: bool)

  predicate PollNext(s: State, step: PollStep, s': State) {
    match step
    case StPollBegin(h, tenant, worker) => CanPollBegin(s, h, worker) && s' == DoPollBegin(s, h, tenant, worker)
    case StPollFetch(h) => CanPollFetch(s, h) && s' == DoPollFetch(s, h)
    case StPollLook(h) => CanPollLook(s, h) && s' == DoPollLook(s, h)
    case StPollStatus(h) => CanPollStatus(s, h) && s' == DoPollStatus(s, h)
    case StPollStore(h, stored) => CanPollStore(s, h) && s' == DoPollStore(s, h, stored)
  }

  datatype ReapStep =
    | StReapSelect(h: nat, items: seq<Seen>)
    | StReapWrite(h: nat)
    | StReapSkip(h: nat)
    | StTick(elapsed: nat)
    | StAbort(h: nat)

  ghost predicate ReapNext(s: State, step: ReapStep, s': State) {
    match step
    case StReapSelect(h, items) => CanReapSelect(s, h, items) && s' == DoReapSelect(s, h, items)
    case StReapWrite(h) => CanReapWrite(s, h) && s' == DoReapWrite(s, h)
    case StReapSkip(h) => CanReapSkip(s, h) && s' == DoReapSkip(s, h)
    case StTick(elapsed) => s' == DoTick(s, elapsed)
    case StAbort(h) => CanAbort(s, h) && s' == DoAbort(s, h)
  }

  datatype Step =
    | ByCreate(create: CreateStep)
    | ByFlow(flow: FlowStep)
    | ByClaim(claim: ClaimStep)
    | ByOwner(owner: OwnerStep)
    | ByPoll(poll: PollStep)
    | ByReap(reap: ReapStep)

  ghost predicate Next(s: State, step: Step, s': State) {
    match step
    case ByCreate(x) => CreateNext(s, x, s')
    case ByFlow(x) => FlowNext(s, x, s')
    case ByClaim(x) => ClaimNext(s, x, s')
    case ByOwner(x) => OwnerNext(s, x, s')
    case ByPoll(x) => PollNext(s, x, s')
    case ByReap(x) => ReapNext(s, x, s')
  }

  /** A run visits trace[0], trace[1], ... by the given steps. */
  ghost predicate Run(trace: seq<State>, steps: seq<Step>) {
    && |trace| == |steps| + 1
    && IsInit(trace[0])
    && (forall i :: 0 <= i < |steps| ==> Next(trace[i], steps[i], trace[i + 1]))
  }
}
