/**
 What a redrive can break, exactly. It resets `attempt`, so the workflow id of a later close can be one
 that was used before; RunWorkflow then does nothing, and the operation may be left RETRYING with nothing
 that would ever move it. Nothing here assumes that an operation is never redriven.
 */
module Redriving {
  import opened Domain
  import opened Rows
  import opened Tables
  import opened Protocol
  import opened Effects
  import opened Addressing
  import opened Cursor
  import opened Budget
  import opened Charges
  import opened Creation
  import opened Stranding

  /** The message from which on a handler may still look for work of the tenant. */
  function PlaceOf(x: Handler, tenant: string): Option<nat> {
    match x
    case PollRead(t, _, cursor) => if t == tenant then Some(cursor) else None
    case PollAt(p) => if p.tenant == tenant then Some(p.i) else None
    case PollCheck(p, _) => if p.tenant == tenant then Some(p.i) else None
    case PollSet(p, _) => if p.tenant == tenant then Some(p.i) else None
    case Claiming(c, _) =>
      if c.resume.Some? && c.resume.value.tenant == tenant then Some(c.resume.value.i) else None
    case _ => None
  }

  /** The handler will neither claim the operation, nor find a message for it, nor start a new workflow for it. */
  ghost predicate Harmless(db: Db, o: string, tenant: string, x: Handler) {
    && (PlaceOf(x, tenant).Some? ==> !InStreamFrom(db, o, tenant, Private, PlaceOf(x, tenant).value))
    && (match x
        case Inserted(id, _, _, _) => id != o
        case Starting(flow, env, _, _) => env.op == o ==> flow in db.flows
        case Claiming(c, _) => c.op != o
        case _ => true)
  }

  ghost predicate FlowsDone(db: Db, o: string) {
    forall f :: f in db.flows && db.flows[f].env.op == o ==> db.flows[f].phase.Done?
  }

  /**
   No workflow, message, claim or start of the private operation is left. (What a cloud operation's consumer
   group has still to deliver is not in these tables.)
   */
  ghost predicate NothingLeft(s: State, o: string) {
    && o in s.db.rows && s.db.rows[o].mode == Private
    && FlowsDone(s.db, o)
    && !InStreamFrom(s.db, o, s.db.rows[o].tenant, Private, CursorOf(s.db, s.db.rows[o].tenant))
    && (forall h :: h in s.handlers ==> Harmless(s.db, o, s.db.rows[o].tenant, s.handlers[h]))
  }

  ghost predicate Stranded(s: State, o: string) {
    NothingLeft(s, o) && s.db.rows[o].status == Retrying
  }

  /** A cancel of the operation, or a claim that names it. */
  predicate Rescues(step: Step, o: string) {
    || (step.ByOwner? && step.owner.StCancel? && step.owner.op == o)
    || (step.ByClaim? && step.claim.StClaimBegin? && step.claim.op == o)
  }

  // ----- Stranded operations stay stranded -----

  /** A RETRYING row is written by one of its workflows, a claim of it, or a cancel. */
  lemma WhoWritesRetrying(s: State, step: Step, s': State, o: string)
    requires Next(s, step, s') && o in s.db.rows && s.db.rows[o].status == Retrying && AllAddressed(s)
    ensures EffectOf(s, step).Changed? && EffectOf(s, step).o == o ==>
              || (step.ByFlow? && step.flow.f in s.db.flows && s.db.flows[step.flow.f].env.op == o
                  && s.db.flows[step.flow.f].phase.Waiting?)
              || (step.ByClaim? && step.claim.h in s.handlers && s.handlers[step.claim.h].Claiming?
                  && s.handlers[step.claim.h].c.op == o)
              || (step.ByOwner? && step.owner.StCancel? && step.owner.op == o)
  {
    match step
    case ByCreate(_) =>
    case ByFlow(_) =>
    case ByClaim(_) =>
    case ByOwner(_) =>
    case ByPoll(_) =>
    case ByReap(_) =>
  }

  /** So a step leaves a stranded operation's row alone, unless it is a cancel. */
  lemma RowStays(s: State, step: Step, s': State, o: string)
    requires Stranded(s, o) && AllAddressed(s) && Next(s, step, s') && !Rescues(step, o)
    ensures o in s'.db.rows && s'.db.rows[o] == s.db.rows[o]
  {
    StepEffects(s, step, s');
    WhoWritesRetrying(s, step, s', o);
  }

  /** A message is new only if a workflow that was about to publish added it. */
  lemma WhoPublishes(s: State, step: Step, s': State)
    requires Next(s, step, s')
    ensures |s'.db.stream| > |s.db.stream| ==>
              && step.ByFlow? && step.flow.f in s.db.flows && s.db.flows[step.flow.f].phase.Publishing?
              && s'.db.stream == s.db.stream + [Job(s.db.flows[step.flow.f].env)]
    ensures s.db.stream <= s'.db.stream
  {
    StepQueues(s, step, s');
  }

  /** Only the operation's own workflows add messages for it. */
  lemma NoNewMessage(s: State, step: Step, s': State, o: string, tenant: string, c: nat)
    requires FlowsDone(s.db, o) && Next(s, step, s') && InStreamFrom(s'.db, o, tenant, Private, c)
    ensures InStreamFrom(s.db, o, tenant, Private, c)
  {
    WhoPublishes(s, step, s');
    var k :| c <= k < |s'.db.stream| && For(s'.db.stream[k], tenant, Private) && s'.db.stream[k].env.op == o;
    assert k < |s.db.stream|;
    assert s'.db.stream[k] == s.db.stream[k];
  }

  lemma HarmlessStays(s: State, step: Step, s': State, o: string, tenant: string, x: Handler)
    requires FlowsDone(s.db, o) && Next(s, step, s') && Harmless(s.db, o, tenant, x)
    ensures Harmless(s'.db, o, tenant, x)
  {
    StepQueues(s, step, s');
    if PlaceOf(x, tenant).Some? && InStreamFrom(s'.db, o, tenant, Private, PlaceOf(x, tenant).value) {
      NoNewMessage(s, step, s', o, tenant, PlaceOf(x, tenant).value);
    }
  }

  lemma FurtherOn(db: Db, o: string, tenant: string, c: nat, d: nat)
    requires c <= d
    ensures InStreamFrom(db, o, tenant, Private, d) ==> InStreamFrom(db, o, tenant, Private, c)
  {
  }

  lemma CreateHarmless(s: State, step: CreateStep, s': State, o: string)
    requires NothingLeft(s, o) && AllAddressed(s) && CreateNext(s, step, s') && step.h in s'.handlers
    ensures Harmless(s.db, o, s.db.rows[o].tenant, s'.handlers[step.h])
  {
    match step
    case StInsert(_, _, _, _, _, _, _) =>
    case StReadBack(h, _) => assert Harmless(s.db, o, s.db.rows[o].tenant, s.handlers[h]);
    case StStart(_) =>
  }

  lemma ClaimHarmless(s: State, step: ClaimStep, s': State, o: string)
    requires NothingLeft(s, o) && ClaimNext(s, step, s') && step.h in s'.handlers && !Rescues(ByClaim(step), o)
    ensures Harmless(s.db, o, s.db.rows[o].tenant, s'.handlers[step.h])
  {
    var t := s.db.rows[o].tenant;
    if !step.StClaimBegin? {
      var c := s.handlers[step.h].c;
      assert Harmless(s.db, o, t, s.handlers[step.h]);
      ClaimPlaces(s, step, s');
      if c.resume.Some? {
        FurtherOn(s.db, o, t, c.resume.value.i, c.resume.value.i + 1);
      }
    }
  }

  lemma PollHarmless(s: State, step: PollStep, s': State, o: string)
    requires NothingLeft(s, o) && AllAddressed(s) && PollNext(s, step, s') && step.h in s'.handlers
    ensures Harmless(s.db, o, s.db.rows[o].tenant, s'.handlers[step.h])
  {
    var t := s.db.rows[o].tenant;
    if !step.StPollBegin? {
      assert Harmless(s.db, o, t, s.handlers[step.h]);
    }
    match step
    case StPollBegin(_, _, _) =>
    case StPollFetch(_) =>
    case StPollLook(h) => LookHarmless(s, h, o);
    case StPollStatus(h) => FurtherOn(s.db, o, t, s.handlers[h].place.i, s.handlers[h].place.i + 1);
    case StPollStore(_, _) =>
  }

  /** A poll that finds a message to claim finds one of another operation. */
  lemma LookHarmless(s: State, h: nat, o: string)
    requires NothingLeft(s, o) && AllAddressed(s) && CanPollLook(s, h) && h in DoPollLook(s, h).handlers
    ensures Harmless(s.db, o, s.db.rows[o].tenant, DoPollLook(s, h).handlers[h])
  {
    var p, t := s.handlers[h].place, s.db.rows[o].tenant;
    assert Harmless(s.db, o, t, s.handlers[h]);
    FurtherOn(s.db, o, t, p.i, p.i + 1);
    if p.i < p.end {
      MessageIsUnread(s, p.i, p.tenant, o);
    }
  }

  lemma MessageIsUnread(s: State, i: nat, tenant: string, o: string)
    requires AllAddressed(s) && i < |s.db.stream|
    ensures ForPrivate(s.db.stream[i], tenant) && s.db.stream[i].env.op == o ==>
              o in s.db.rows && s.db.rows[o].tenant == tenant && InStreamFrom(s.db, o, tenant, Private, i)
  {
    if ForPrivate(s.db.stream[i], tenant) {
      assert Addressed(s.db, s.db.stream[i].env);
      assert For(s.db.stream[i], tenant, Private);
    }
  }

  lemma OwnerHarmless(s: State, step: OwnerStep, s': State, o: string, h: nat)
    requires Stranded(s, o) && AllAddressed(s) && OwnerNext(s, step, s')
    requires ActorOf(ByOwner(step)) == Some(h) && h in s'.handlers
    ensures Harmless(s.db, o, s.db.rows[o].tenant, s'.handlers[h])
  {
    match step
    case StFailRead(_, _, _, _, _) =>
    case StFailWrite(_) => FailWriteHarmless(s, h, o);
    case StRedrive(_, _, _, _) =>
    case _ =>
  }

  lemma FailWriteHarmless(s: State, h: nat, o: string)
    requires Stranded(s, o) && AllAddressed(s) && CanFailWrite(s, h)
    ensures h in DoFailWrite(s, h).handlers ==> Harmless(s.db, o, s.db.rows[o].tenant, DoFailWrite(s, h).handlers[h])
  {
    assert HandlerAddressed(s.db, s.handlers[h]);
  }

  lemma ReapHarmless(s: State, step: ReapStep, s': State, o: string, h: nat)
    requires Stranded(s, o) && AllAddressed(s) && ReapNext(s, step, s')
    requires ActorOf(ByReap(step)) == Some(h) && h in s'.handlers
    ensures Harmless(s.db, o, s.db.rows[o].tenant, s'.handlers[h])
  {
    match step
    case StReapSelect(_, _) =>
    case StReapWrite(_) => ReapWriteHarmless(s, h, o);
    case StReapSkip(_) =>
    case StTick(_) =>
    case StAbort(_) =>
  }

  lemma ReapWriteHarmless(s: State, h: nat, o: string)
    requires Stranded(s, o) && AllAddressed(s) && CanReapWrite(s, h)
    ensures h in DoReapWrite(s, h).handlers
    ensures Harmless(s.db, o, s.db.rows[o].tenant, DoReapWrite(s, h).handlers[h])
  {
    assert HandlerAddressed(s.db, s.handlers[h]);
  }

  lemma ActorHarmless(s: State, step: Step, s': State, o: string, h: nat)
    requires Stranded(s, o) && AllAddressed(s) && Next(s, step, s') && !Rescues(step, o)
    requires ActorOf(step) == Some(h) && h in s'.handlers
    ensures Harmless(s.db, o, s.db.rows[o].tenant, s'.handlers[h])
  {
    match step
    case ByCreate(x) => CreateHarmless(s, x, s', o);
    case ByClaim(x) => ClaimHarmless(s, x, s', o);
    case ByOwner(x) => OwnerHarmless(s, x, s', o, h);
    case ByPoll(x) => PollHarmless(s, x, s', o);
    case ByReap(x) => ReapHarmless(s, x, s', o, h);
    case ByFlow(_) =>
  }

  lemma CursorStays(s: State, step: Step, s': State, o: string)
    requires NothingLeft(s, o) && Next(s, step, s')
    ensures
      var t := s.db.rows[o].tenant;
      !InStreamFrom(s'.db, o, t, Private, CursorOf(s'.db, t))
  {
    var t := s.db.rows[o].tenant;
    StepQueues(s, step, s');
    if CursorOf(s'.db, t) != CursorOf(s.db, t) {
      assert Harmless(s.db, o, t, s.handlers[step.poll.h]);
    }
    if InStreamFrom(s'.db, o, t, Private, CursorOf(s'.db, t)) {
      NoNewMessage(s, step, s', o, t, CursorOf(s'.db, t));
    }
  }

  /** No finished workflow of the operation starts over, and none is added. */
  lemma FlowsStayDone(s: State, step: Step, s': State, o: string)
    requires NothingLeft(s, o) && Next(s, step, s')
    ensures FlowsDone(s'.db, o)
  {
    StepQueues(s, step, s');
    forall f | f in s'.db.flows && s'.db.flows[f].env.op == o
      ensures s'.db.flows[f].phase.Done?
    {
      WhoStarts(s, step, s', f);
      DoneNeverMoves(s, step, s');
    }
  }

  lemma WhoStarts(s: State, step: Step, s': State, f: FlowId)
    requires Next(s, step, s')
    ensures f in s'.db.flows && f !in s.db.flows ==>
              exists h :: h in s.handlers && s.handlers[h].Starting? && s.handlers[h].flow == f
                && s.handlers[h].env == s'.db.flows[f].env
  {
    StepQueues(s, step, s');
    if f in s'.db.flows && f !in s.db.flows {
      StartCarries(s, step.create, s');
    }
  }

  lemma StartCarries(s: State, step: CreateStep, s': State)
    requires CreateNext(s, step, s') && step.StStart?
    ensures s.handlers[step.h].flow !in s.db.flows ==>
              && s.handlers[step.h].flow in s'.db.flows
              && s'.db.flows[s.handlers[step.h].flow].env == s.handlers[step.h].env
  {
    match step
    case StStart(h) =>
      var x := s.handlers[h];
      assert s'.db == RunWorkflow(s.db, x.flow, x.env, x.notBefore);
  }

  lemma DoneNeverMoves(s: State, step: Step, s': State)
    requires Next(s, step, s')
    ensures step.ByFlow? ==> step.flow.f in s.db.flows && !s.db.flows[step.flow.f].phase.Done?
  {
  }

  /** Every step of anyone keeps a stranded operation stranded, except a cancel of it or a claim that names it. */
  lemma StrandedStays(s: State, step: Step, s': State, o: string)
    requires Stranded(s, o) && AllAddressed(s) && Next(s, step, s') && !Rescues(step, o)
    ensures Stranded(s', o)
  {
    RowStays(s, step, s', o);
    FlowsStayDone(s, step, s', o);
    CursorStays(s, step, s', o);
    StepLocal(s, step, s');
    var t := s.db.rows[o].tenant;
    forall h | h in s'.handlers
      ensures Harmless(s'.db, o, t, s'.handlers[h])
    {
      if ActorOf(step) == Some(h) {
        ActorHarmless(s, step, s', o, h);
      }
      HarmlessStays(s, step, s', o, t, s'.handlers[h]);
    }
  }

  /** In any run: stranded once, stranded until someone cancels the operation or claims it by name. */
  lemma {:induction false} StrandedUntilRescued(trace: seq<State>, steps: seq<Step>, i: nat, j: nat, o: string)
    requires Run(trace, steps) && i <= j <= |steps| && Stranded(trace[i], o)
    requires forall k :: i <= k < j ==> !Rescues(steps[k], o)
    ensures Stranded(trace[j], o)
  {
    if i < j {
      StrandedUntilRescued(trace, steps, i, j - 1, o);
      RunAddressed(trace, steps, j - 1);
      StrandedStays(trace[j - 1], steps[j - 1], trace[j], o);
    }
  }

  /**
   Both rescues are open: a claim that names the operation selects its row, and a cancel's UPDATE matches it.
   A redrive does not.
   */
  lemma RescuesAreOpen(trace: seq<State>, steps: seq<Step>, i: nat, o: string)
    requires Run(trace, steps) && i <= |steps| && Stranded(trace[i], o)
    ensures Selected(trace[i].db, o, None) && Hits(trace[i].db, o, Cancel) && !Hits(trace[i].db, o, Redrive)
  {
    RunAddressed(trace, steps, i);
  }

  // ----- What an unfinished workflow can still do -----

  lemma DueQueues(s: State, f: FlowId) returns (s': State)
    requires CanFlowUpdate(s, f) && s.db.rows[s.db.flows[f].env.op].status == Retrying
    ensures FlowNext(s, StFlowUpdate(f), s')
    ensures s'.db.rows[s.db.flows[f].env.op].status == Queued && Owed(s'.db, s.db.flows[f].env.op)
  {
    s' := DoFlowUpdate(s, f);
    assert s'.db.flows[f].phase == Logging;
  }

  /** Before its UPDATE, it gets its operation queued once it is due. */
  lemma WaitingCanQueue(s: State, f: FlowId) returns (s1: State, s2: State, elapsed: nat)
    requires InPhase(s, f) && s.db.flows[f].phase.Waiting?
    requires s.db.rows[s.db.flows[f].env.op].status == Retrying && Free(s, s.db.flows[f].env.op)
    ensures ReapNext(s, StTick(elapsed), s1) && FlowNext(s1, StFlowUpdate(f), s2)
    ensures s2.db.rows[s.db.flows[f].env.op].status == Queued && Owed(s2.db, s.db.flows[f].env.op)
  {
    var wait := s.db.flows[f].notBefore - s.db.now;
    elapsed := if wait > 0 then wait else 0;
    s1 := DoTick(s, elapsed);
    s2 := DueQueues(s1, f);
  }

  /** Between its UPDATE and its message, it adds a message from which the operation can be claimed as it is. */
  lemma LoggingCanPublish(s: State, f: FlowId) returns (s1: State, s2: State)
    requires InPhase(s, f) && s.db.flows[f].phase.Logging? && Addressed(s.db, s.db.flows[f].env)
    requires s.db.rows[s.db.flows[f].env.op].status == Retrying
    ensures FlowNext(s, StFlowLog(f), s1) && FlowNext(s1, StFlowPublish(f), s2)
    ensures
      var env := s.db.flows[f].env;
      InStreamFrom(s2.db, env.op, env.tenant, env.mode, |s.db.stream|) && Selected(s2.db, env.op, Some(env.tenant))
  {
    s1 := DoFlowLog(s, f);
    s2 := DoFlowPublish(s1, f);
    assert For(s2.db.stream[|s.db.stream|], s.db.flows[f].env.tenant, s.db.flows[f].env.mode);
  }

  /** In its status check it goes on to finish, and does nothing more for the operation. */
  lemma CheckingIsInVain(s: State, f: FlowId) returns (s1: State, s2: State)
    requires InPhase(s, f) && s.db.flows[f].phase.Checking?
    requires s.db.rows[s.db.flows[f].env.op].status == Retrying
    ensures FlowNext(s, StFlowCheck(f), s1) && s1.db.flows[f].phase.Returning?
    ensures FlowNext(s1, StFlowFinish(f), s2) && s2.db.flows[f].phase.Done?
    ensures s2.db.rows == s.db.rows && s2.db.stream == s.db.stream
  {
    s1 := DoFlowCheck(s, f);
    s2 := DoFlowFinish(s1, f);
  }

  /** If the service restarts, the step runs again once it is due: then the workflow helps wherever it stood. */
  lemma RestartedCanQueue(s: State, f: FlowId) returns (s1: State, s2: State, s3: State, elapsed: nat)
    requires InPhase(s, f) && !s.db.flows[f].phase.Done?
    requires s.db.rows[s.db.flows[f].env.op].status == Retrying && Free(s, s.db.flows[f].env.op)
    ensures FlowNext(s, StFlowCrash(f), s1) && ReapNext(s1, StTick(elapsed), s2) && FlowNext(s2, StFlowUpdate(f), s3)
    ensures s3.db.rows[s.db.flows[f].env.op].status == Queued && Owed(s3.db, s.db.flows[f].env.op)
  {
    s1 := DoFlowCrash(s, f);
    s2, s3, elapsed := WaitingCanQueue(s1, f);
  }

  // ----- When a close strands -----

  /** A report, reap or redrive that commits its handler to start a workflow of the operation. */
  predicate Restarts(s: State, step: Step, o: string) {
    && NewStart(s, step).Some? && NewStart(s, step).value.op == o
    && (step.ByOwner? || step.ByReap?)
  }

  /**
   In any run: a close into RETRYING, or a redrive, strands exactly when its workflow id was used before and
   nothing else is left.
   */
  lemma StrandsExactly(trace: seq<State>, steps: seq<Step>, i: nat, o: string)
    requires Run(trace, steps) && i < |steps| && o in trace[i + 1].db.rows && trace[i + 1].db.rows[o].status == Retrying
    requires Restarts(trace[i], steps[i], o)
    ensures Stranded(trace[i + 1], o) <==>
        NewStart(trace[i], steps[i]).value in trace[i].db.flows && NothingLeft(trace[i], o)
  {
    var s, step, s' := trace[i], steps[i], trace[i + 1];
    RunAddressed(trace, steps, i);
    RunAddressed(trace, steps, i + 1);
    assert Next(s, step, s');
    StartsForRow(s, step, s', o);
    StepStarts(s, step, s');
    StepLocal(s, step, s');
    var h := ActorOf(step).value;
    assert HandlerAddressed(s'.db, s'.handlers[h]);
    if Stranded(s', o) {
      assert Harmless(s'.db, o, s'.db.rows[o].tenant, s'.handlers[h]);
      NothingWasLeft(s, s', o, h);
    }
    if NothingLeft(s, o) && NewStart(s, step).value in s.db.flows {
      NothingIsLeft(s, s', o, h);
    }
  }

  /** A step that touches no queue and only moves a report or a reap leaves as much of the operation as there was. */
  lemma NothingWasLeft(s: State, s': State, o: string, h: nat)
    requires SameQueues(s.db, s'.db) && Local(s, Some(h), s') && NothingLeft(s', o)
    requires o in s.db.rows && SameIdentity(s.db.rows[o], s'.db.rows[o])
    requires h in s.handlers ==> s.handlers[h].Failing? || s.handlers[h].Reaping?
    ensures NothingLeft(s, o)
  {
    forall k | k in s.handlers
      ensures Harmless(s.db, o, s.db.rows[o].tenant, s.handlers[k])
    {
      if k != h {
        assert Harmless(s'.db, o, s'.db.rows[o].tenant, s'.handlers[k]);
      }
    }
  }

  lemma NothingIsLeft(s: State, s': State, o: string, h: nat)
    requires SameQueues(s.db, s'.db) && Local(s, Some(h), s') && NothingLeft(s, o)
    requires o in s'.db.rows && SameIdentity(s.db.rows[o], s'.db.rows[o])
    requires h in s'.handlers ==> Harmless(s'.db, o, s'.db.rows[o].tenant, s'.handlers[h])
    ensures NothingLeft(s', o)
  {
    forall k | k in s'.handlers
      ensures Harmless(s'.db, o, s'.db.rows[o].tenant, s'.handlers[k])
    {
      if k != h {
        assert Harmless(s.db, o, s.db.rows[o].tenant, s.handlers[k]);
      }
    }
  }

  /**
   The step that commits to start a workflow for a RETRYING operation is a report, a reap or a redrive: it
   touches no queue.
   */
  lemma StartsForRow(s: State, step: Step, s': State, o: string)
    requires Next(s, step, s') && Restarts(s, step, o)
    requires o in s'.db.rows && s'.db.rows[o].status == Retrying
    ensures SameQueues(s.db, s'.db) && ActorOf(step).Some?
    ensures o in s.db.rows && SameIdentity(s.db.rows[o], s'.db.rows[o])
    ensures ActorOf(step).value in s.handlers ==>
              s.handlers[ActorOf(step).value].Failing? || s.handlers[ActorOf(step).value].Reaping?
  {
    StepEffects(s, step, s');
    match step
    case ByOwner(x) => OwnerQueues(s, x, s');
    case ByReap(x) => ReapQueues(s, x, s');
    case _ =>
  }

  // ----- An unused id keeps the operation alive -----

  lemma ReadyLeavesSomething(s: State, f: FlowId, o: string)
    requires AllAddressed(s) && Ready(s, f) && f.op == o
    ensures !NothingLeft(s, o)
  {
    if f !in s.db.flows {
      var h :| h in s.handlers && s.handlers[h].Starting? && s.handlers[h].flow == f;
      assert HandlerAddressed(s.db, s.handlers[h]);
      assert o in s.db.rows ==> !Harmless(s.db, o, s.db.rows[o].tenant, s.handlers[h]);
    } else {
      assert s.db.flows[f].env.op == o && !s.db.flows[f].phase.Done?;
    }
  }

  lemma NotUpdated(s: State, step: Step, s': State, f: FlowId)
    requires AllAddressed(s) && Next(s, step, s') && f.op in s'.db.rows && s'.db.rows[f.op].status == Retrying
    ensures step != ByFlow(StFlowUpdate(f))
  {
    if step.ByFlow? && step.flow.StFlowUpdate? {
      UpdateLeavesPending(s, step.flow, s');
    }
  }

  lemma FreshIdReady(s: State, step: Step, s': State, o: string)
    requires Next(s, step, s') && Restarts(s, step, o) && NewStart(s, step).value !in s.db.flows
    requires o in s'.db.rows && s'.db.rows[o].status == Retrying
    ensures Ready(s', NewStart(s, step).value)
  {
    StartsForRow(s, step, s', o);
    WillStartAfter(s, step, s', NewStart(s, step).value);
  }

  lemma ReadyUntilUpdated(s: State, step: Step, s': State, f: FlowId)
    requires AllAddressed(s) && Next(s, step, s') && f.op in s'.db.rows && s'.db.rows[f.op].status == Retrying
    requires Ready(s, f)
    ensures Ready(s', f)
  {
    NotUpdated(s, step, s', f);
    ReadyStays(s, step, s', f);
  }

  /** While its operation is RETRYING a workflow that is ready stays so. */
  lemma {:induction false} StaysReady(trace: seq<State>, steps: seq<Step>, i: nat, j: nat, f: FlowId)
    requires Run(trace, steps) && i <= j <= |steps| && Ready(trace[i], f)
    requires forall k :: i <= k <= j ==> f.op in trace[k].db.rows && trace[k].db.rows[f.op].status == Retrying
    ensures Ready(trace[j], f)
  {
    if i < j {
      StaysReady(trace, steps, i, j - 1, f);
      RunAddressed(trace, steps, j - 1);
      assert Next(trace[j - 1], steps[j - 1], trace[j]);
      ReadyUntilUpdated(trace[j - 1], steps[j - 1], trace[j], f);
    }
  }

  /**
   In any run: an operation whose report, reap or redrive found its workflow id unused has that workflow
   coming until it leaves RETRYING.
   */
  lemma UnusedIdStaysReady(trace: seq<State>, steps: seq<Step>, i: nat, j: nat, o: string)
    requires Run(trace, steps) && i < j <= |steps|
    requires Restarts(trace[i], steps[i], o)
    requires NewStart(trace[i], steps[i]).value !in trace[i].db.flows
    requires forall k :: i < k <= j ==> o in trace[k].db.rows && trace[k].db.rows[o].status == Retrying
    ensures Ready(trace[j], NewStart(trace[i], steps[i]).value) && !Stranded(trace[j], o)
  {
    var f := NewStart(trace[i], steps[i]).value;
    assert Next(trace[i], steps[i], trace[i + 1]);
    FreshIdReady(trace[i], steps[i], trace[i + 1], o);
    StaysReady(trace, steps, i + 1, j, f);
    RunAddressed(trace, steps, j);
    ReadyLeavesSomething(trace[j], f, o);
  }

  // ----- The whole of it -----

  /** The step after which the operation has been RETRYING ever since. */
  ghost predicate EnteredBy(trace: seq<State>, steps: seq<Step>, i: nat, j: nat, o: string)
    requires |trace| == |steps| + 1
  {
    && i < j <= |steps|
    && Restarts(trace[i], steps[i], o)
    && (o in trace[i].db.rows && trace[i].db.rows[o].status != Retrying)
    && (forall k :: i < k <= j ==> o in trace[k].db.rows && trace[k].db.rows[o].status == Retrying)
  }

  /**
   A step into RETRYING is a report, a reap or a redrive, and commits its handler to start a workflow of the
   operation.
   */
  lemma EntryStarts(s: State, step: Step, s': State, window: int, o: string)
    requires Budgeted(s, window) && Next(s, step, s') && Disciplined(s, step, window)
    requires o in s'.db.rows && s'.db.rows[o].status == Retrying
    requires o !in s.db.rows || s.db.rows[o].status != Retrying
    ensures o in s.db.rows && Restarts(s, step, o)
  {
    StepEffects(s, step, s');
    HowEntered(s.db, EffectOf(s, step), s'.db, o);
    if EffectOf(s, step).u.Redrive? {
      RedriveStarts(s, step, s');
    } else {
      RetryingStarts(s, step, window);
    }
  }

  lemma HowEntered(db: Db, e: Effect, db': Db, o: string)
    requires Follows(db, e, db') && o in db'.rows && db'.rows[o].status == Retrying
    requires o !in db.rows || db.rows[o].status != Retrying
    ensures e.Changed? && e.o == o && Hits(db, o, e.u)
    ensures e.u.Redrive? || ((e.u.Fail? || e.u.Reap?) && e.u.to == Retrying)
  {
  }

  lemma RedriveStarts(s: State, step: Step, s': State)
    requires Next(s, step, s') && EffectOf(s, step).Changed? && EffectOf(s, step).u.Redrive?
    ensures Restarts(s, step, EffectOf(s, step).o)
  {
    match step
    case ByOwner(_) =>
    case _ =>
  }

  lemma {:induction false} EntryOf(trace: seq<State>, steps: seq<Step>, window: int, j: nat, o: string)
    returns (i: nat)
    requires DisciplinedRun(trace, steps, window) && j <= |steps|
    requires o in trace[j].db.rows && trace[j].db.rows[o].status == Retrying
    ensures EnteredBy(trace, steps, i, j, o)
  {
    if o in trace[j - 1].db.rows && trace[j - 1].db.rows[o].status == Retrying {
      i := EntryOf(trace, steps, window, j - 1, o);
    } else {
      LatestEntry(trace, steps, window, j - 1, o);
      i := j - 1;
    }
  }

  lemma LatestEntry(trace: seq<State>, steps: seq<Step>, window: int, i: nat, o: string)
    requires DisciplinedRun(trace, steps, window) && i < |steps|
    requires o in trace[i + 1].db.rows && trace[i + 1].db.rows[o].status == Retrying
    requires o !in trace[i].db.rows || trace[i].db.rows[o].status != Retrying
    ensures o in trace[i].db.rows && Restarts(trace[i], steps[i], o)
  {
    RunBudgeted(trace, steps, window, i);
    EntryStarts(trace[i], steps[i], trace[i + 1], window, o);
  }

  /**
   In any disciplined run, redrives or not: an operation that is RETRYING got there by a step that committed
   to start a workflow of it. If that id was unused, the workflow is before its UPDATE or about to be started;
   the operation is stranded if and only if the id had been used and nothing else of it is left.
   */
  lemma StrandedExactly(trace: seq<State>, steps: seq<Step>, window: int, j: nat, o: string)
    returns (i: nat)
    requires DisciplinedRun(trace, steps, window) && j <= |steps|
    requires o in trace[j].db.rows && trace[j].db.rows[o].status == Retrying
    ensures EnteredBy(trace, steps, i, j, o)
    ensures NewStart(trace[i], steps[i]).value !in trace[i].db.flows ==>
        Ready(trace[j], NewStart(trace[i], steps[i]).value)
    ensures Stranded(trace[j], o) <==>
        NewStart(trace[i], steps[i]).value in trace[i].db.flows && NothingLeft(trace[j], o)
  {
    i := EntryOf(trace, steps, window, j, o);
    if NewStart(trace[i], steps[i]).value !in trace[i].db.flows {
      UnusedIdStaysReady(trace, steps, i, j, o);
    }
  }

  /** In particular, an operation that was never redriven is never stranded. */
  lemma NeverRedrivenNeverStranded(trace: seq<State>, steps: seq<Step>, window: int, i: nat, o: string)
    requires DisciplinedRun(trace, steps, window) && i <= |steps| && NeverRedriven(trace[i].db, o)
    ensures !Stranded(trace[i], o)
  {
    RunAddressed(trace, steps, i);
    if o in trace[i].db.rows && trace[i].db.rows[o].status == Retrying {
      NoOperationStranded(trace, steps, window, i, o);
      var attempt := trace[i].db.rows[o].attempt;
      if Ready(trace[i], RetryFlow(o, attempt)) {
        ReadyLeavesSomething(trace[i], RetryFlow(o, attempt), o);
      } else {
        ReadyLeavesSomething(trace[i], RecoveryFlow(o, attempt), o);
      }
    }
  }
}
