/**
 No operation is forgotten: whatever its status, something is on its way that will move it on. For
 RETRYING this needs that the operation was never redriven, because a redrive resets `attempt` and
 workflow ids then repeat; Redriving.dfy says what happens exactly then.
 */
module Stranding {
  import opened Domain
  import opened Rows
  import opened Tables
  import opened Protocol
  import opened Effects
  import opened Addressing
  import opened Leases
  import opened Budget
  import opened Charges
  import opened Creation
  import opened Cursor
  import Handlers

  predicate Waits(db: Db, f: FlowId) {
    f in db.flows && db.flows[f].phase.Waiting?
  }

  /** The workflow is before its UPDATE, or a handler will start it and its id is unused. */
  ghost predicate Ready(s: State, f: FlowId) {
    Waits(s.db, f) || (f !in s.db.flows && WillStart(s, f))
  }

  /** The workflow ids of the two ways out of an attempt and into RETRYING. */
  predicate AfterAttempt(f: FlowId, o: string, attempt: int) {
    f == RetryFlow(o, attempt) || f == RecoveryFlow(o, attempt)
  }

  predicate NumberedFlow(f: FlowId) {
    f.RetryFlow? || f.RecoveryFlow?
  }

  /** A numbered workflow belongs to a closed attempt. */
  predicate FlowPlaced(db: Db, f: FlowId) {
    NumberedFlow(f) ==>
      && f.op in db.rows && f.op in db.history
      && (NeverRedriven(db, f.op) ==>
            && f.attempt <= db.rows[f.op].attempt
            && (f.attempt == db.rows[f.op].attempt ==> db.rows[f.op].status != Running))
  }

  ghost predicate FlowsPlaced(s: State) {
    && (forall f :: f in s.db.flows ==> FlowPlaced(s.db, f))
    && (forall f :: WillStart(s, f) ==> FlowPlaced(s.db, f))
  }

  ghost predicate Covered(s: State, o: string)
    requires o in s.db.rows
  {
    && (s.db.rows[o].status == Pending ==> BeingCreated(s, o) || Ready(s, OperationFlow(o)))
    && (s.db.rows[o].status == Retrying && NeverRedriven(s.db, o) ==>
          exists f :: AfterAttempt(f, o, s.db.rows[o].attempt) && Ready(s, f))
  }

  ghost predicate NoneStranded(s: State) {
    FlowsPlaced(s) && forall o :: o in s.db.rows ==> Covered(s, o)
  }

  lemma FlowPlacedStays(db: Db, e: Effect, db': Db, f: FlowId)
    requires FlowPlaced(db, f) && Follows(db, e, db')
    ensures FlowPlaced(db', f)
  {
    if NumberedFlow(f) {
      RedrivesGrow(db, e, db', f.op);
    }
  }

  /** A workflow a close starts is numbered by the attempt it closed. */
  lemma CloseNumbers(s: State, step: Step, s': State, window: int)
    requires Budgeted(s, window) && Next(s, step, s') && Disciplined(s, step, window)
    requires NewStart(s, step).Some? && NumberedFlow(NewStart(s, step).value)
    ensures
      var f, e := NewStart(s, step).value, EffectOf(s, step);
      && e.Changed? && Hits(s.db, e.o, e.u) && e.o == f.op
      && s.db.rows[f.op].status == Running && s.db.rows[f.op].attempt == f.attempt
      && (e.u.Fail? || e.u.Reap?) && e.u.to == Retrying
  {
    match step
    case ByOwner(x) => assert ReportFresh(s.db, s.handlers[x.h]);
    case ByReap(x) => ReapInTime(s, step, window);
    case _ =>
  }

  /** RETRYING is entered by a redrive, or by a close that commits to start that attempt's workflow. */
  lemma RetryingStarts(s: State, step: Step, window: int)
    requires Budgeted(s, window) && Disciplined(s, step, window)
    requires
      var e := EffectOf(s, step);
      e.Changed? && Hits(s.db, e.o, e.u) && (e.u.Fail? || e.u.Reap?) && e.u.to == Retrying
    ensures NewStart(s, step).Some?
    ensures AfterAttempt(NewStart(s, step).value, EffectOf(s, step).o, s.db.rows[EffectOf(s, step).o].attempt)
  {
    var e := EffectOf(s, step);
    if e.u.Fail? {
      FailWritesReport(s, step);
      assert ReportFresh(s.db, s.handlers[step.owner.h]);
    } else {
      ReapInTime(s, step, window);
    }
  }

  lemma ReadyStays(s: State, step: Step, s': State, f: FlowId)
    requires Next(s, step, s') && Ready(s, f)
    ensures Ready(s', f) || step == ByFlow(StFlowUpdate(f))
  {
    StepQueues(s, step, s');
    WillStartAfter(s, step, s', f);
    if Waits(s.db, f) {
      if Mover(step) == Some(f) && !step.flow.StFlowUpdate? {
        MoverWaits(s, step.flow, s');
      }
    } else if f in s'.db.flows {
      StartWaits(s, step.create, s');
    }
  }

  lemma MoverWaits(s: State, step: FlowStep, s': State)
    requires FlowNext(s, step, s') && Waits(s.db, step.f) && !step.StFlowUpdate?
    ensures Waits(s'.db, step.f)
  {
  }

  lemma StartWaits(s: State, step: CreateStep, s': State)
    requires CreateNext(s, step, s') && step.StStart?
    ensures s.handlers[step.h].flow !in s.db.flows ==> Waits(s'.db, s.handlers[step.h].flow)
  {
    match step
    case StStart(h) =>
      var x := s.handlers[h];
      assert s'.db == RunWorkflow(s.db, x.flow, x.env, x.notBefore);
  }

  lemma StepFlowsPlaced(s: State, step: Step, s': State, window: int)
    requires Budgeted(s, window) && FlowsPlaced(s) && Next(s, step, s') && Disciplined(s, step, window)
    ensures FlowsPlaced(s')
  {
    forall f | f in s'.db.flows || WillStart(s', f)
      ensures FlowPlaced(s'.db, f)
    {
      if NewStart(s, step) == Some(f) {
        NewFlowPlaced(s, step, s', window, f);
      } else {
        OldFlowPlaced(s, step, s', f);
      }
    }
  }

  lemma NewFlowPlaced(s: State, step: Step, s': State, window: int, f: FlowId)
    requires Budgeted(s, window) && Next(s, step, s') && Disciplined(s, step, window) && NewStart(s, step) == Some(f)
    ensures FlowPlaced(s'.db, f)
  {
    StepEffects(s, step, s');
    if NumberedFlow(f) {
      CloseNumbers(s, step, s', window);
      ClosedFlowPlaced(s.db, EffectOf(s, step), s'.db, f);
    }
  }

  lemma OldFlowPlaced(s: State, step: Step, s': State, f: FlowId)
    requires FlowsPlaced(s) && Next(s, step, s') && NewStart(s, step) != Some(f)
    requires f in s'.db.flows || WillStart(s', f)
    ensures FlowPlaced(s'.db, f)
  {
    StepEffects(s, step, s');
    StepQueues(s, step, s');
    WillStartAfter(s, step, s', f);
    if f in s'.db.flows && f !in s.db.flows {
      assert WillStart(s, f);
    }
    FlowPlacedStays(s.db, EffectOf(s, step), s'.db, f);
  }

  lemma ClosedFlowPlaced(db: Db, e: Effect, db': Db, f: FlowId)
    requires Follows(db, e, db') && e.Changed? && e.o == f.op && NumberedFlow(f)
    requires db.rows[f.op].attempt == f.attempt && (e.u.Fail? || e.u.Reap?)
    ensures FlowPlaced(db', f)
  {
  }

  /** A close of a never redriven operation finds its workflow id unused. */
  lemma NewFlowUnused(s: State, step: Step, s': State, window: int)
    requires Budgeted(s, window) && FlowsPlaced(s) && Next(s, step, s') && Disciplined(s, step, window)
    requires NewStart(s, step).Some? && NumberedFlow(NewStart(s, step).value)
    requires NeverRedriven(s.db, NewStart(s, step).value.op)
    ensures Ready(s', NewStart(s, step).value)
  {
    var f := NewStart(s, step).value;
    CloseNumbers(s, step, s', window);
    StepQueues(s, step, s');
    WillStartAfter(s, step, s', f);
    assert f !in s.db.flows;
  }

  lemma PendingCovered(s: State, step: Step, s': State, o: string)
    requires CreationSound(s) && AllAddressed(s) && Next(s, step, s') && o in s'.db.rows
    requires s'.db.rows[o].status == Pending
    requires o in s.db.rows ==> s.db.rows[o].status == Pending && Covered(s, o)
    ensures BeingCreated(s', o) || Ready(s', OperationFlow(o))
  {
    var f := OperationFlow(o);
    CreatorStays(s, step, s', o);
    StepQueues(s, step, s');
    if o in s.db.rows && Ready(s, f) {
      ReadyStays(s, step, s', f);
      if step == ByFlow(StFlowUpdate(f)) {
        UpdateLeavesPending(s, step.flow, s');
      }
    } else if !BeingCreated(s', o) && f in s'.db.flows {
      assert f in s.db.flows || WillStart(s, f);
      NotBothStarted(s, o);
    }
  }

  /** While a row's creator has not read back, nothing was started for it; before the row, neither. */
  lemma NotBothStarted(s: State, o: string)
    requires CreationSound(s) && AllAddressed(s) && (BeingCreated(s, o) || o !in s.db.rows)
    ensures OperationFlow(o) !in s.db.flows && !WillStart(s, OperationFlow(o))
  {
    if BeingCreated(s, o) {
      var h :| h in s.handlers && s.handlers[h].Inserted? && s.handlers[h].id == o;
      assert InsertedSound(s, h, s.handlers[h]);
    } else {
      StartHasRow(s, OperationFlow(o));
    }
  }

  /** A due workflow's UPDATE leaves its operation neither PENDING nor RETRYING. */
  lemma UpdateLeavesPending(s: State, step: FlowStep, s': State)
    requires AllAddressed(s) && FlowNext(s, step, s') && step.StFlowUpdate?
    ensures step.f.op in s'.db.rows && s'.db.rows[step.f.op].status !in {Pending, Retrying}
  {
  }

  /** An operation found RETRYING after a statement was so before it, or was just closed into it. */
  lemma HowRetrying(db: Db, e: Effect, db': Db, o: string)
    requires Follows(db, e, db') && o in db'.rows && o in db'.history && (o in db.rows ==> o in db.history)
    requires db'.rows[o].status == Retrying && NeverRedriven(db', o)
    ensures o in db.rows && db'.rows[o].attempt == db.rows[o].attempt && NeverRedriven(db, o)
    ensures db.rows[o].status == Retrying
            || (e.Changed? && e.o == o && Hits(db, o, e.u) && (e.u.Fail? || e.u.Reap?) && e.u.to == Retrying)
  {
    if o in db.rows {
      RedrivesGrow(db, e, db', o);
    }
  }

  lemma RetryingStays(s: State, step: Step, s': State, o: string)
    requires AllAddressed(s) && Next(s, step, s') && o in s.db.rows && Covered(s, o)
    requires s.db.rows[o].status == Retrying && NeverRedriven(s.db, o)
    requires o in s'.db.rows && s'.db.rows[o].status == Retrying
    ensures exists f :: AfterAttempt(f, o, s.db.rows[o].attempt) && Ready(s', f)
  {
    var f :| AfterAttempt(f, o, s.db.rows[o].attempt) && Ready(s, f);
    ReadyStays(s, step, s', f);
    if step == ByFlow(StFlowUpdate(f)) {
      UpdateLeavesPending(s, step.flow, s');
    }
  }

  lemma RetryingEntered(s: State, step: Step, s': State, window: int)
    requires Budgeted(s, window) && FlowsPlaced(s) && Next(s, step, s') && Disciplined(s, step, window)
    requires
      var e := EffectOf(s, step);
      e.Changed? && Hits(s.db, e.o, e.u) && (e.u.Fail? || e.u.Reap?) && e.u.to == Retrying && NeverRedriven(s.db, e.o)
    ensures
      var e := EffectOf(s, step);
      exists f :: AfterAttempt(f, e.o, s.db.rows[e.o].attempt) && Ready(s', f)
  {
    RetryingStarts(s, step, window);
    NewFlowUnused(s, step, s', window);
  }

  lemma RetryingCovered(s: State, step: Step, s': State, window: int, o: string)
    requires Budgeted(s, window) && FlowsPlaced(s) && (o in s.db.rows ==> Covered(s, o)) && AllAddressed(s)
    requires Next(s, step, s') && Disciplined(s, step, window)
    requires Follows(s.db, EffectOf(s, step), s'.db) && o in s'.db.history
    requires o in s'.db.rows && s'.db.rows[o].status == Retrying && NeverRedriven(s'.db, o)
    ensures exists f :: AfterAttempt(f, o, s'.db.rows[o].attempt) && Ready(s', f)
  {
    HowRetrying(s.db, EffectOf(s, step), s'.db, o);
    if s.db.rows[o].status == Retrying {
      RetryingStays(s, step, s', o);
    } else {
      RetryingEntered(s, step, s', window);
    }
  }

  lemma WasPending(db: Db, e: Effect, db': Db, o: string)
    requires Follows(db, e, db') && o in db.rows && db'.rows[o].status == Pending
    ensures db.rows[o].status == Pending
  {
  }

  lemma StepCovers(s: State, step: Step, s': State, window: int, o: string)
    requires Budgeted(s, window) && NoneStranded(s) && CreationSound(s) && AllAddressed(s)
    requires Next(s, step, s') && Disciplined(s, step, window)
    requires Follows(s.db, EffectOf(s, step), s'.db) && o in s'.db.rows
    ensures Covered(s', o)
  {
    if s'.db.rows[o].status == Pending {
      if o in s.db.rows {
        WasPending(s.db, EffectOf(s, step), s'.db, o);
        assert Covered(s, o);
      }
      PendingCovered(s, step, s', o);
    } else if s'.db.rows[o].status == Retrying && NeverRedriven(s'.db, o) {
      RetryingCovered(s, step, s', window, o);
    }
  }

  lemma StepNoneStranded(s: State, step: Step, s': State, window: int)
    requires Budgeted(s, window) && NoneStranded(s) && CreationSound(s) && AllAddressed(s)
    requires Next(s, step, s') && Disciplined(s, step, window)
    ensures NoneStranded(s')
  {
    StepFlowsPlaced(s, step, s', window);
    StepEffects(s, step, s');
    forall o | o in s'.db.rows
      ensures Covered(s', o)
    {
      StepCovers(s, step, s', window, o);
    }
  }

  lemma {:induction false} RunNoneStranded(trace: seq<State>, steps: seq<Step>, window: int, i: nat)
    requires DisciplinedRun(trace, steps, window) && i <= |steps|
    ensures NoneStranded(trace[i])
  {
    if i > 0 {
      RunNoneStranded(trace, steps, window, i - 1);
      RunBudgeted(trace, steps, window, i - 1);
      RunCreation(trace, steps, i - 1);
      RunAddressed(trace, steps, i - 1);
      StepNoneStranded(trace[i - 1], steps[i - 1], trace[i], window);
    }
  }

  // ----- Results -----

  /**
   In every disciplined run, for every operation: PENDING has its create or its workflow on the way;
   RETRYING, if it was never redriven, has the workflow of its last attempt before its UPDATE, or about
   to be started under an unused id; QUEUED and private has a message its tenant's cursor has not passed
   or is owed one; RUNNING has a lease to expire.
   */
  lemma NoOperationStranded(trace: seq<State>, steps: seq<Step>, window: int, i: nat, o: string)
    requires DisciplinedRun(trace, steps, window) && i <= |steps| && o in trace[i].db.rows
    ensures
      var s, r := trace[i], trace[i].db.rows[o];
      && (r.status == Pending ==> BeingCreated(s, o) || Ready(s, OperationFlow(o)))
      && (r.status == Retrying && NeverRedriven(s.db, o) ==>
            Ready(s, RetryFlow(o, r.attempt)) || Ready(s, RecoveryFlow(o, r.attempt)))
      && (r.status == Queued && r.mode == Private ==>
            Owed(s.db, o) || InStreamFrom(s.db, o, r.tenant, Private, CursorOf(s.db, r.tenant)))
      && (r.status == Running ==> r.expires.Some?)
  {
    RunNoneStranded(trace, steps, window, i);
    RunSound(trace, steps, i);
    var s, r := trace[i], trace[i].db.rows[o];
    assert Covered(s, o);
    if r.status == Queued && r.mode == Private {
      RunCursors(trace, steps, i);
      assert CursorSafe(s.db, r.tenant, Private, CursorOf(s.db, r.tenant)) && QueuedHere(s.db, o, r.tenant, Private);
    }
  }

  /**
   What "will publish it" means: three steps of a waiting workflow, once due, get the operation QUEUED and
   into the stream.
   */
  lemma WaitingPublishes(s: State, f: FlowId) returns (s1: State, s2: State, s3: State)
    requires InPhase(s, f) && s.db.flows[f].phase.Waiting? && s.db.flows[f].notBefore <= s.db.now
    requires Free(s, s.db.flows[f].env.op) && s.db.rows[s.db.flows[f].env.op].status in {Pending, Retrying}
    ensures FlowNext(s, StFlowUpdate(f), s1) && FlowNext(s1, StFlowLog(f), s2) && FlowNext(s2, StFlowPublish(f), s3)
    ensures s3.db.rows[s.db.flows[f].env.op].status == Queued
    ensures s3.db.stream == s.db.stream + [Job(s.db.flows[f].env)]
  {
    s1 := DoFlowUpdate(s, f);
    s2 := DoFlowLog(s1, f);
    s3 := DoFlowPublish(s2, f);
  }

  /**
   A lease that ran out, with fewer than 50 that did so no later, is in every batch the reaper's SELECT can
   answer, and its UPDATE takes it.
   */
  lemma ExpiredIsReaped(s: State, o: string, elapsed: nat, items: seq<Seen>)
    requires RowsSound(s.db) && o in s.db.rows && s.db.rows[o].status == Running
    requires s.db.rows[o].expires.Some? ==> s.db.rows[o].expires.value < s.db.now + elapsed
    requires ReapBatch(DoTick(s, elapsed).db, items)
    requires Expired(DoTick(s, elapsed).db, o) ==> |Handlers.Older(DoTick(s, elapsed).db, o)| < BATCH
    ensures
      var late := DoTick(s, elapsed);
      exists i :: 0 <= i < |items| && items[i].op == o && Hits(late.db, o, ReapUpdate(late, items[i]))
  {
    LeaseRunsOut(s, o, elapsed);
    Handlers.ExpiredIsPicked(DoTick(s, elapsed).db, items, o);
  }

  lemma LeaseRunsOut(s: State, o: string, elapsed: nat)
    requires RowsSound(s.db) && o in s.db.rows && s.db.rows[o].status == Running
    requires s.db.rows[o].expires.Some? ==> s.db.rows[o].expires.value < s.db.now + elapsed
    ensures
      var late := DoTick(s, elapsed);
      Expired(late.db, o) && forall it: Seen :: it.op == o ==> Hits(late.db, o, ReapUpdate(late, it))
  {
    assert Sound(s.db.rows[o], s.db.history[o]);
  }
}
