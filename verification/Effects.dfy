/** What one step of the machine does to the operations table, and what no step touches. */
module Effects {
  import opened Domain
  import opened Rows
  import opened Tables
  import opened Protocol

  datatype Effect =
    | Nothing
    | Added(o: string, r: Row)
    | Changed(o: string, u: Update)

  function WriteIfHit(db: Db, o: string, u: Update): Effect {
    if Hits(db, o, u) then Changed(o, u) else Nothing
  }

  function CreateEffect(s: State, step: CreateStep): Effect {
    match step
    case StInsert(h, id, tenant, key, mode, maxAttempts, notBefore) =>
      if KeyTaken(s.db, tenant, key) then Nothing else Added(id, NewRow(tenant, mode, key, maxAttempts))
    case _ => Nothing
  }

  function FlowEffect(s: State, step: FlowStep): Effect {
    match step
    case StFlowUpdate(f) => if f in s.db.flows then WriteIfHit(s.db, s.db.flows[f].env.op, Enqueue) else Nothing
    case _ => Nothing
  }

  function ClaimEffect(s: State, step: ClaimStep): Effect {
    match step
    case StClaimCommit(h) =>
      if InClaim(s, h) then Changed(s.handlers[h].c.op, ClaimUpdate(s.handlers[h].c)) else Nothing
    case _ => Nothing
  }

  function OwnerEffect(s: State, step: OwnerStep): Effect {
    match step
    case StHeartbeat(op, route, worker) => Changed(op, HeartbeatUpdate(s, route, worker))
    case StComplete(op, route, worker) => Changed(op, Complete(worker))
    case StFailRead(_, _, _, _, _) => Nothing
    case StFailWrite(h) =>
      if CanFailWrite(s, h) && FailHits(s, s.handlers[h]) then Changed(s.handlers[h].op, FailUpdate(s.handlers[h]))
      else Nothing
    case StCancel(op, tenant) => Changed(op, Cancel)
    case StRedrive(h, op, tenant, nonce) => Changed(op, Redrive)
  }

  function ReapEffect(s: State, step: ReapStep): Effect {
    match step
    case StReapWrite(h) =>
      if CanReapWrite(s, h) then WriteIfHit(s.db, s.handlers[h].items[0].op, ReapUpdate(s, s.handlers[h].items[0]))
      else Nothing
    case _ => Nothing
  }

  /** The one row statement a step runs, if any. */
  function EffectOf(s: State, step: Step): Effect {
    match step
    case ByCreate(x) => CreateEffect(s, x)
    case ByFlow(x) => FlowEffect(s, x)
    case ByClaim(x) => ClaimEffect(s, x)
    case ByOwner(x) => OwnerEffect(s, x)
    case ByPoll(_) => Nothing
    case ByReap(x) => ReapEffect(s, x)
  }

  predicate Follows(db: Db, e: Effect, db': Db) {
    match e
    case Nothing => db'.rows == db.rows && db'.history == db.history
    case Added(o, r) =>
      && o !in db.rows && r == NewRow(r.tenant, r.mode, r.key, r.maxAttempts) && 1 <= r.maxAttempts <= 10
      && db'.rows == Insert(db, o, r).rows && db'.history == Insert(db, o, r).history
    case Changed(o, u) => Hits(db, o, u) && db'.rows == Write(db, o, u).rows && db'.history == Write(db, o, u).history
  }

  /** Streams and the clock only grow; limits and a row's identity never change. */
  predicate RestGrows(db: Db, db': Db) {
    db.stream <= db'.stream && db.now <= db'.now && db'.limits == db.limits
  }

  ghost predicate Grows(db: Db, db': Db) {
    && RestGrows(db, db')
    && db.rows.Keys <= db'.rows.Keys
    && (forall o :: o in db.rows ==> SameIdentity(db.rows[o], db'.rows[o]))
  }

  predicate SameIdentity(r: Row, r': Row) {
    r'.tenant == r.tenant && r'.mode == r.mode && r'.key == r.key && r'.maxAttempts == r.maxAttempts
  }

  lemma FollowsKeepsIdentity(db: Db, e: Effect, db': Db)
    requires Follows(db, e, db')
    ensures db.rows.Keys <= db'.rows.Keys
    ensures forall o :: o in db.rows ==> SameIdentity(db.rows[o], db'.rows[o])
  {
  }

  lemma CreateEffects(s: State, step: CreateStep, s': State)
    requires CreateNext(s, step, s')
    ensures Follows(s.db, CreateEffect(s, step), s'.db) && RestGrows(s.db, s'.db) && s'.db.events == s.db.events
  {
    match step
    case StInsert(_, _, _, _, _, _, _) =>
    case StReadBack(_, _) =>
    case StStart(_) =>
  }

  lemma FlowEffects(s: State, step: FlowStep, s': State)
    requires FlowNext(s, step, s')
    ensures Follows(s.db, FlowEffect(s, step), s'.db) && RestGrows(s.db, s'.db) && s'.db.events == s.db.events
  {
    match step
    case StFlowUpdate(_) =>
    case StFlowCheck(_) =>
    case StFlowLog(_) =>
    case StFlowPublish(_) =>
    case StFlowFinish(_) =>
    case StFlowCrash(_) =>
  }

  lemma ClaimEffects(s: State, step: ClaimStep, s': State)
    requires ClaimNext(s, step, s')
    ensures Follows(s.db, ClaimEffect(s, step), s'.db) && RestGrows(s.db, s'.db) && s'.db.events == s.db.events
  {
    match step
    case StClaimBegin(_, _, _, _) =>
    case StLockRow(_) =>
    case StLockTenant(_) =>
    case StCount(_) =>
    case StClaimWrite(_) =>
    case StClaimCommit(_) =>
  }

  lemma OwnerEffects(s: State, step: OwnerStep, s': State)
    requires OwnerNext(s, step, s')
    ensures Follows(s.db, OwnerEffect(s, step), s'.db) && RestGrows(s.db, s'.db)
  {
    match step
    case StHeartbeat(_, _, _) =>
    case StComplete(_, _, _) =>
    case StFailRead(_, _, _, _, _) =>
    case StFailWrite(_) =>
    case StCancel(_, _) =>
    case StRedrive(_, _, _, _) =>
  }

  lemma PollEffects(s: State, step: PollStep, s': State)
    requires PollNext(s, step, s')
    ensures Follows(s.db, Nothing, s'.db) && RestGrows(s.db, s'.db) && s'.db.events == s.db.events
  {
    match step
    case StPollBegin(_, _, _) =>
    case StPollFetch(_) =>
    case StPollLook(_) =>
    case StPollStatus(_) =>
    case StPollStore(_, _) =>
  }

  lemma ReapEffects(s: State, step: ReapStep, s': State)
    requires ReapNext(s, step, s')
    ensures Follows(s.db, ReapEffect(s, step), s'.db) && RestGrows(s.db, s'.db)
  {
    match step
    case StReapSelect(_, _) =>
    case StReapWrite(_) =>
    case StReapSkip(_) =>
    case StTick(_) =>
    case StAbort(_) =>
  }

  /** Every step runs at most one row statement, the one EffectOf names, and shrinks nothing. */
  lemma StepEffects(s: State, step: Step, s': State)
    requires Next(s, step, s')
    ensures Follows(s.db, EffectOf(s, step), s'.db)
    ensures Grows(s.db, s'.db)
  {
    match step {
    case ByCreate(x) => CreateEffects(s, x, s');
    case ByFlow(x) => FlowEffects(s, x, s');
    case ByClaim(x) => ClaimEffects(s, x, s');
    case ByOwner(x) => OwnerEffects(s, x, s');
    case ByPoll(x) => PollEffects(s, x, s');
    case ByReap(x) => ReapEffects(s, x, s');
    }
    FollowsKeepsIdentity(s.db, EffectOf(s, step), s'.db);
  }

  // ----- Which handler runs which statement -----

  lemma ClaimsCommit(s: State, step: Step)
    requires EffectOf(s, step).Changed? && EffectOf(s, step).u.Claim?
    ensures step.ByClaim? && step.claim.StClaimCommit? && InClaim(s, step.claim.h)
    ensures EffectOf(s, step) == Changed(s.handlers[step.claim.h].c.op, ClaimUpdate(s.handlers[step.claim.h].c))
  {
  }

  lemma FailWritesReport(s: State, step: Step)
    requires EffectOf(s, step).Changed? && EffectOf(s, step).u.Fail?
    ensures step.ByOwner? && step.owner.StFailWrite? && CanFailWrite(s, step.owner.h)
    ensures EffectOf(s, step) == Changed(s.handlers[step.owner.h].op, FailUpdate(s.handlers[step.owner.h]))
  {
  }

  lemma ReapWritesSeen(s: State, step: Step)
    requires EffectOf(s, step).Changed? && EffectOf(s, step).u.Reap?
    ensures step.ByReap? && step.reap.StReapWrite? && CanReapWrite(s, step.reap.h)
    ensures
      var it := s.handlers[step.reap.h].items[0];
      EffectOf(s, step) == Changed(it.op, ReapUpdate(s, it))
  {
  }

  // ----- Locality: a step moves at most one handler -----

  /** The handler that moves, if any. */
  function ActorOf(step: Step): Option<nat> {
    match step
    case ByCreate(x) => Some(x.h)
    case ByFlow(_) => None
    case ByClaim(x) => Some(x.h)
    case ByOwner(x) => if x.StFailRead? || x.StFailWrite? || x.StRedrive? then Some(x.h) else None
    case ByPoll(x) => Some(x.h)
    case ByReap(x) => if x.StTick? then None else Some(x.h)
  }

  /** Every handler but `actor` keeps its place and its locks. */
  predicate Local(s: State, actor: Option<nat>, s': State) {
    && (forall k :: k in s.handlers && actor != Some(k) ==> k in s'.handlers && s'.handlers[k] == s.handlers[k])
    && (forall k :: k in s'.handlers && actor != Some(k) ==> k in s.handlers)
    && (forall o :: o in s.rowLocks && actor != Some(s.rowLocks[o]) ==>
          o in s'.rowLocks && s'.rowLocks[o] == s.rowLocks[o])
    && (forall t :: t in s.tenantLocks && actor != Some(s.tenantLocks[t]) ==>
          t in s'.tenantLocks && s'.tenantLocks[t] == s.tenantLocks[t])
  }

  lemma CreateLocal(s: State, step: CreateStep, s': State)
    requires CreateNext(s, step, s')
    ensures Local(s, ActorOf(ByCreate(step)), s')
  {
    match step
    case StInsert(_, _, _, _, _, _, _) =>
    case StReadBack(_, _) =>
    case StStart(_) =>
  }

  lemma FlowLocal(s: State, step: FlowStep, s': State)
    requires FlowNext(s, step, s')
    ensures Local(s, ActorOf(ByFlow(step)), s')
  {
    match step
    case StFlowUpdate(_) =>
    case StFlowCheck(_) =>
    case StFlowLog(_) =>
    case StFlowPublish(_) =>
    case StFlowFinish(_) =>
    case StFlowCrash(_) =>
  }

  /** The end of a transaction releases its own locks and no others. */
  lemma EndClaimLocal(s: State, h: nat, c: ClaimTx, claimed: bool)
    ensures Local(s, Some(h), EndClaim(s, h, c, claimed))
  {
  }

  lemma ClaimLocal(s: State, step: ClaimStep, s': State)
    requires ClaimNext(s, step, s')
    ensures Local(s, ActorOf(ByClaim(step)), s')
  {
    match step
    case StClaimBegin(_, _, _, _) =>
    case StLockRow(h) => EndClaimLocal(s, h, s.handlers[h].c, false);
    case StLockTenant(_) =>
    case StCount(h) => EndClaimLocal(s, h, s.handlers[h].c, false);
    case StClaimWrite(h) => EndClaimLocal(s, h, s.handlers[h].c, false);
    case StClaimCommit(h) => EndClaimLocal(s.(db := s'.db), h, s.handlers[h].c, true);
  }

  lemma OwnerLocal(s: State, step: OwnerStep, s': State)
    requires OwnerNext(s, step, s')
    ensures Local(s, ActorOf(ByOwner(step)), s')
  {
    match step
    case StHeartbeat(_, _, _) =>
    case StComplete(_, _, _) =>
    case StFailRead(_, _, _, _, _) =>
    case StFailWrite(_) =>
    case StCancel(_, _) =>
    case StRedrive(_, _, _, _) =>
  }

  lemma OneHandlerLocal(s: State, h: nat, s': State)
    requires s'.rowLocks == s.rowLocks && s'.tenantLocks == s.tenantLocks
    requires s'.handlers == s.handlers - {h} || (h in s'.handlers && s'.handlers == s.handlers[h := s'.handlers[h]])
    ensures Local(s, Some(h), s')
  {
  }

  lemma PollLocal(s: State, step: PollStep, s': State)
    requires PollNext(s, step, s')
    ensures Local(s, ActorOf(ByPoll(step)), s')
  {
    OneHandlerLocal(s, step.h, s');
  }

  lemma ReapLocal(s: State, step: ReapStep, s': State)
    requires ReapNext(s, step, s')
    ensures Local(s, ActorOf(ByReap(step)), s')
  {
    match step
    case StReapSelect(_, _) =>
    case StReapWrite(_) =>
    case StReapSkip(_) =>
    case StTick(_) =>
    case StAbort(_) =>
  }

  lemma StepLocal(s: State, step: Step, s': State)
    requires Next(s, step, s')
    ensures Local(s, ActorOf(step), s')
  {
    match step
    case ByCreate(x) => CreateLocal(s, x, s');
    case ByFlow(x) => FlowLocal(s, x, s');
    case ByClaim(x) => ClaimLocal(s, x, s');
    case ByOwner(x) => OwnerLocal(s, x, s');
    case ByPoll(x) => PollLocal(s, x, s');
    case ByReap(x) => ReapLocal(s, x, s');
  }

  // ----- Workflows: only RunWorkflow adds one, only its own steps move one -----

  predicate SameFlow(f: Flow, f': Flow) {
    f'.env == f.env && f'.notBefore == f.notBefore
  }

  predicate FlowsKept(db: Db, db': Db, moved: Option<FlowId>, started: Option<FlowId>) {
    && (forall f :: f in db.flows ==> f in db'.flows && SameFlow(db.flows[f], db'.flows[f]))
    && (forall f :: f in db.flows && moved != Some(f) ==> db'.flows[f] == db.flows[f])
    && (forall f :: f in db'.flows && started != Some(f) ==> f in db.flows)
  }

  function Mover(step: Step): Option<FlowId> {
    if step.ByFlow? then Some(step.flow.f) else None
  }

  function Starter(s: State, step: Step): Option<FlowId> {
    if step.ByCreate? && step.create.StStart? && CanStart(s, step.create.h) then Some(s.handlers[step.create.h].flow)
    else None
  }

  /** The stream grows by the envelope of the workflow that publishes, and by nothing else. */
  function StreamAfter(s: State, step: Step): seq<Message> {
    if step.ByFlow? && step.flow.StFlowPublish? && step.flow.f in s.db.flows then
      s.db.stream + [Job(s.db.flows[step.flow.f].env)]
    else s.db.stream
  }

  function CursorsAfter(s: State, step: Step): map<string, nat> {
    if step.ByPoll? && step.poll.StPollStore? && step.poll.stored && CanPollStore(s, step.poll.h) then
      s.db.cursors[s.handlers[step.poll.h].place.tenant := s.handlers[step.poll.h].place.i]
    else s.db.cursors
  }

  /** What a step does to workflows, stream and cursors. */
  predicate Queues(s: State, step: Step, s': State) {
    && FlowsKept(s.db, s'.db, Mover(step), Starter(s, step))
    && s'.db.stream == StreamAfter(s, step)
    && s'.db.cursors == CursorsAfter(s, step)
  }

  lemma CreateQueues(s: State, step: CreateStep, s': State)
    requires CreateNext(s, step, s')
    ensures Queues(s, ByCreate(step), s')
  {
    match step
    case StInsert(_, _, _, _, _, _, _) =>
    case StReadBack(_, _) =>
    case StStart(h) => StartQueues(s, h);
  }

  lemma StartQueues(s: State, h: nat)
    requires CanStart(s, h)
    ensures Queues(s, ByCreate(StStart(h)), DoStart(s, h))
  {
    var x := s.handlers[h];
    assert DoStart(s, h).db == RunWorkflow(s.db, x.flow, x.env, x.notBefore);
  }

  lemma SetPhaseKeeps(db: Db, f: FlowId, p: Phase)
    requires f in db.flows
    ensures FlowsKept(db, SetPhase(db, f, p), Some(f), None)
  {
  }

  lemma FlowQueues(s: State, step: FlowStep, s': State)
    requires FlowNext(s, step, s')
    ensures Queues(s, ByFlow(step), s')
  {
    FlowSetsPhase(s, step, s');
    SetPhaseKeeps(s.db, step.f, s'.db.flows[step.f].phase);
  }

  lemma FlowSetsPhase(s: State, step: FlowStep, s': State)
    requires FlowNext(s, step, s')
    ensures step.f in s'.db.flows && s'.db.flows == SetPhase(s.db, step.f, s'.db.flows[step.f].phase).flows
    ensures s'.db.stream == StreamAfter(s, ByFlow(step)) && s'.db.cursors == s.db.cursors
  {
    match step
    case StFlowUpdate(_) =>
    case StFlowCheck(_) =>
    case StFlowLog(_) =>
    case StFlowPublish(_) =>
    case StFlowFinish(_) =>
    case StFlowCrash(_) =>
  }

  predicate SameQueues(db: Db, db': Db) {
    db'.flows == db.flows && db'.stream == db.stream && db'.cursors == db.cursors
  }

  lemma ClaimQueues(s: State, step: ClaimStep, s': State)
    requires ClaimNext(s, step, s')
    ensures SameQueues(s.db, s'.db)
  {
    match step
    case StClaimBegin(_, _, _, _) =>
    case StLockRow(_) =>
    case StLockTenant(_) =>
    case StCount(_) =>
    case StClaimWrite(_) =>
    case StClaimCommit(_) =>
  }

  lemma OwnerQueues(s: State, step: OwnerStep, s': State)
    requires OwnerNext(s, step, s')
    ensures SameQueues(s.db, s'.db)
  {
    match step
    case StHeartbeat(_, _, _) =>
    case StComplete(_, _, _) =>
    case StFailRead(_, _, _, _, _) =>
    case StFailWrite(_) =>
    case StCancel(_, _) =>
    case StRedrive(_, _, _, _) =>
  }

  lemma PollQueues(s: State, step: PollStep, s': State)
    requires PollNext(s, step, s')
    ensures s'.db.flows == s.db.flows && s'.db.stream == s.db.stream && s'.db.cursors == CursorsAfter(s, ByPoll(step))
  {
    match step
    case StPollBegin(_, _, _) =>
    case StPollFetch(_) =>
    case StPollLook(_) =>
    case StPollStatus(_) =>
    case StPollStore(_, _) =>
  }

  lemma ReapQueues(s: State, step: ReapStep, s': State)
    requires ReapNext(s, step, s')
    ensures SameQueues(s.db, s'.db)
  {
    match step
    case StReapSelect(_, _) =>
    case StReapWrite(_) =>
    case StReapSkip(_) =>
    case StTick(_) =>
    case StAbort(_) =>
  }

  lemma StepQueues(s: State, step: Step, s': State)
    requires Next(s, step, s')
    ensures Queues(s, step, s')
  {
    match step
    case ByCreate(x) => CreateQueues(s, x, s');
    case ByFlow(x) => FlowQueues(s, x, s');
    case ByClaim(x) => ClaimQueues(s, x, s');
    case ByOwner(x) => OwnerQueues(s, x, s');
    case ByPoll(x) => PollQueues(s, x, s');
    case ByReap(x) => ReapQueues(s, x, s');
  }

  // ----- Events -----

  datatype Emit = Emit(key: EventKey, tenant: string)

  /** The event a step records, if any: private reports and dead-letterings by the reaper. */
  function EmitOf(s: State, step: Step): Option<Emit> {
    match step
    case ByOwner(x) => OwnerEmit(s, x)
    case ByReap(x) => ReapEmit(s, x)
    case _ => None
  }

  function OwnerEmit(s: State, step: OwnerStep): Option<Emit> {
    match step
    case StComplete(op, Some(tenant), _) =>
      if op in s.db.rows then Some(Emit(EventKey(op, SucceededEvent, s.db.rows[op].attempt), tenant)) else None
    case StFailWrite(h) =>
      if CanFailWrite(s, h) && FailHits(s, s.handlers[h]) && s.handlers[h].route.Some? then
        var x := s.handlers[h];
        Some(Emit(EventKey(x.op, FailKind(FailUpdate(x).to), x.attempt), x.route.value))
      else None
    case _ => None
  }

  function ReapEmit(s: State, step: ReapStep): Option<Emit> {
    match step
    case StReapWrite(h) =>
      if CanReapWrite(s, h) && Hits(s.db, s.handlers[h].items[0].op, ReapUpdate(s, s.handlers[h].items[0]))
         && ReapTarget(s.handlers[h].items[0]) == DeadLettered
      then
        var it := s.handlers[h].items[0];
        Some(Emit(EventKey(it.op, DeadLetteredEvent, it.attempt), it.env.tenant))
      else None
    case _ => None
  }

  function EventsAfter(db: Db, e: Option<Emit>): map<EventKey, Event> {
    if e.None? then db.events else InsertEvent(db, e.value.key, e.value.tenant).events
  }

  lemma OwnerEvents(s: State, step: OwnerStep, s': State)
    requires OwnerNext(s, step, s')
    ensures s'.db.events == EventsAfter(s.db, OwnerEmit(s, step))
  {
    match step
    case StHeartbeat(_, _, _) =>
    case StComplete(_, _, _) =>
    case StFailRead(_, _, _, _, _) =>
    case StFailWrite(_) =>
    case StCancel(_, _) =>
    case StRedrive(_, _, _, _) =>
  }

  lemma ReapEvents(s: State, step: ReapStep, s': State)
    requires ReapNext(s, step, s')
    ensures s'.db.events == EventsAfter(s.db, ReapEmit(s, step))
  {
    match step
    case StReapSelect(_, _) =>
    case StReapWrite(_) =>
    case StReapSkip(_) =>
    case StTick(_) =>
    case StAbort(_) =>
  }

  lemma StepEvents(s: State, step: Step, s': State)
    requires Next(s, step, s')
    ensures s'.db.events == EventsAfter(s.db, EmitOf(s, step))
  {
    match step
    case ByCreate(x) => CreateEffects(s, x, s');
    case ByFlow(x) => FlowEffects(s, x, s');
    case ByClaim(x) => ClaimEffects(s, x, s');
    case ByOwner(x) => OwnerEvents(s, x, s');
    case ByPoll(x) => PollEffects(s, x, s');
    case ByReap(x) => ReapEvents(s, x, s');
  }

  // ----- Workflow starts -----

  /** The workflow a step's commit obliges its handler to start next, if any. */
  function NewStart(s: State, step: Step): Option<FlowId> {
    match step
    case ByCreate(StReadBack(h, found)) =>
      if CanReadBack(s, h, found) && found == s.handlers[h].id then Some(OperationFlow(found)) else None
    case ByOwner(StFailWrite(h)) =>
      if CanFailWrite(s, h) && FailHits(s, s.handlers[h]) && FailUpdate(s.handlers[h]).to == Retrying
      then Some(RetryFlow(s.handlers[h].op, s.handlers[h].attempt)) else None
    case ByOwner(StRedrive(_, op, _, nonce)) => Some(RedriveFlow(op, nonce))
    case ByReap(StReapWrite(h)) =>
      if CanReapWrite(s, h) && Hits(s.db, s.handlers[h].items[0].op, ReapUpdate(s, s.handlers[h].items[0]))
         && ReapTarget(s.handlers[h].items[0]) == Retrying
      then Some(RecoveryFlow(s.handlers[h].items[0].op, s.handlers[h].items[0].attempt)) else None
    case _ => None
  }

  /**
   A handler owes a start exactly when its last step committed one; it pays by StStart, and a create by its
   read back.
   */
  predicate Starts(s: State, step: Step, s': State) {
    ActorOf(step).Some? ==>
      var h := ActorOf(step).value;
      && (NewStart(s, step).Some? ==>
            h in s'.handlers && s'.handlers[h].Starting? && s'.handlers[h].flow == NewStart(s, step).value)
      && (h in s'.handlers && s'.handlers[h].Starting? ==> NewStart(s, step).Some?)
      && (h in s'.handlers && s'.handlers[h].Inserted? ==>
            step.ByCreate? && step.create.StInsert?
            && s'.handlers[h] == Inserted(step.create.id, step.create.tenant, step.create.key, step.create.notBefore))
      && (h in s.handlers && s.handlers[h].Starting? ==> step == ByCreate(StStart(h)))
      && (h in s.handlers && s.handlers[h].Inserted? ==> step.ByCreate? && step.create.StReadBack?)
  }

  lemma CreateStarts(s: State, step: CreateStep, s': State)
    requires CreateNext(s, step, s')
    ensures Starts(s, ByCreate(step), s')
  {
    match step
    case StInsert(_, _, _, _, _, _, _) =>
    case StReadBack(_, _) =>
    case StStart(_) =>
  }

  lemma ClaimStarts(s: State, step: ClaimStep, s': State)
    requires ClaimNext(s, step, s')
    ensures Starts(s, ByClaim(step), s')
  {
    match step
    case StClaimBegin(_, _, _, _) =>
    case StLockRow(_) =>
    case StLockTenant(_) =>
    case StCount(_) =>
    case StClaimWrite(_) =>
    case StClaimCommit(_) =>
  }

  lemma OwnerStarts(s: State, step: OwnerStep, s': State)
    requires OwnerNext(s, step, s')
    ensures Starts(s, ByOwner(step), s')
  {
    match step
    case StHeartbeat(_, _, _) =>
    case StComplete(_, _, _) =>
    case StFailRead(_, _, _, _, _) =>
    case StFailWrite(_) =>
    case StCancel(_, _) =>
    case StRedrive(_, _, _, _) =>
  }

  lemma PollStarts(s: State, step: PollStep, s': State)
    requires PollNext(s, step, s')
    ensures Starts(s, ByPoll(step), s')
  {
    match step
    case StPollBegin(_, _, _) =>
    case StPollFetch(_) =>
    case StPollLook(_) =>
    case StPollStatus(_) =>
    case StPollStore(_, _) =>
  }

  lemma ReapStarts(s: State, step: ReapStep, s': State)
    requires ReapNext(s, step, s')
    ensures Starts(s, ByReap(step), s')
  {
    match step
    case StReapSelect(_, _) =>
    case StReapWrite(_) =>
    case StReapSkip(_) =>
    case StTick(_) =>
    case StAbort(_) =>
  }

  lemma StepStarts(s: State, step: Step, s': State)
    requires Next(s, step, s')
    ensures Starts(s, step, s')
  {
    match step
    case ByCreate(x) => CreateStarts(s, x, s');
    case ByFlow(_) =>
    case ByClaim(x) => ClaimStarts(s, x, s');
    case ByOwner(x) => OwnerStarts(s, x, s');
    case ByPoll(x) => PollStarts(s, x, s');
    case ByReap(x) => ReapStarts(s, x, s');
  }

  // ----- Who walks the stream -----

  predicate KeepsPlace(x: Handler) {
    !x.Inserted? && !x.Starting? && !x.Failing? && !x.Reaping?
  }

  /** Creates, reports and reapers keep no place in the stream. */
  lemma NoPlace(s: State, step: Step, s': State, h: nat)
    requires Next(s, step, s') && ActorOf(step) == Some(h) && h in s'.handlers
    requires step.ByCreate? || step.ByOwner? || step.ByReap?
    ensures !KeepsPlace(s'.handlers[h])
  {
    match step
    case ByCreate(_) =>
    case ByOwner(_) =>
    case ByReap(_) =>
  }
}
