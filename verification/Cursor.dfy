/**
 The poll cursor as an index over the stream, with any number of pollers, crashes, retries and
 redrives: no cursor value ever passes the last message of a private operation that is still QUEUED,
 unless the workflow step that queued it has not added its message yet.
 */
module Cursor {
  import opened Domain
  import opened Rows
  import opened Tables
  import opened Protocol
  import opened Effects
  import opened Addressing

  predicate QueuedHere(db: Db, o: string, tenant: string, mode: Mode) {
    o in db.rows && db.rows[o].tenant == tenant && db.rows[o].mode == mode && db.rows[o].status == Queued
  }

  /** A workflow moved the operation to QUEUED and has yet to add its message. */
  ghost predicate Owed(db: Db, o: string) {
    exists f :: f in db.flows && db.flows[f].env.op == o && Owes(db.flows[f].phase)
  }

  /** A message for the operation after the first `c`, addressed to its tenant and mode. */
  ghost predicate InStreamFrom(db: Db, o: string, tenant: string, mode: Mode, c: nat) {
    exists i :: c <= i < |db.stream| && For(db.stream[i], tenant, mode) && db.stream[i].env.op == o
  }

  /** Cursor value `c` may be stored for the tenant: everything it still needs lies after it. */
  ghost predicate CursorSafe(db: Db, tenant: string, mode: Mode, c: nat) {
    && c <= |db.stream|
    && (forall o :: QueuedHere(db, o, tenant, mode) ==> Owed(db, o) || InStreamFrom(db, o, tenant, mode, c))
  }

  // ----- A safe cursor value stays safe -----

  /** An operation becomes QUEUED only by a workflow step, which then owes it a message. */
  lemma QueuedIsOwed(s: State, step: Step, s': State, o: string, tenant: string, mode: Mode)
    requires Next(s, step, s')
    requires QueuedHere(s'.db, o, tenant, mode) && !QueuedHere(s.db, o, tenant, mode)
    ensures Owed(s'.db, o)
  {
    StepEffects(s, step, s');
    BecomesQueued(s.db, EffectOf(s, step), s'.db, o, tenant, mode);
    WhoEnqueues(s, step);
    FlowUpdateOwes(s, step.flow, s');
  }

  lemma BecomesQueued(db: Db, e: Effect, db': Db, o: string, tenant: string, mode: Mode)
    requires Follows(db, e, db') && QueuedHere(db', o, tenant, mode) && !QueuedHere(db, o, tenant, mode)
    ensures e == Changed(o, Enqueue)
  {
    assert e.Changed? && e.o == o;
  }

  lemma WhoEnqueues(s: State, step: Step)
    requires EffectOf(s, step).Changed? && EffectOf(s, step).u.Enqueue?
    ensures step.ByFlow? && step.flow.StFlowUpdate?
  {
  }

  lemma FlowUpdateOwes(s: State, step: FlowStep, s': State)
    requires step.StFlowUpdate? && FlowNext(s, step, s') && FlowEffect(s, step).Changed?
    ensures Owed(s'.db, FlowEffect(s, step).o)
  {
    assert Owes(s'.db.flows[step.f].phase);
  }

  lemma UnpublishedOwes(s: State, step: FlowStep, s': State)
    requires FlowNext(s, step, s') && !step.StFlowPublish? && Owes(s.db.flows[step.f].phase)
    requires s.db.rows[s.db.flows[step.f].env.op].status == Queued
    ensures Owes(s'.db.flows[step.f].phase)
  {
    match step
    case StFlowUpdate(_) =>
    case StFlowCheck(_) =>
    case StFlowLog(_) =>
    case StFlowFinish(_) =>
    case StFlowCrash(_) =>
  }

  lemma PublishedIsThere(s: State, f: FlowId, tenant: string, mode: Mode, c: nat)
    requires CanFlowPublish(s, f) && Addressed(s.db, s.db.flows[f].env) && c <= |s.db.stream|
    requires QueuedHere(s.db, s.db.flows[f].env.op, tenant, mode)
    ensures InStreamFrom(DoFlowPublish(s, f).db, s.db.flows[f].env.op, tenant, mode, c)
  {
    var n, stream := |s.db.stream|, DoFlowPublish(s, f).db.stream;
    assert stream[n] == Job(s.db.flows[f].env);
    assert For(stream[n], tenant, mode) && stream[n].env.op == s.db.flows[f].env.op;
  }

  /** What a workflow owes a QUEUED operation it goes on owing until it adds the message. */
  lemma FlowKeepsOwing(s: State, step: FlowStep, s': State, tenant: string, mode: Mode, c: nat)
    requires AllAddressed(s) && FlowNext(s, step, s') && Owes(s.db.flows[step.f].phase) && c <= |s.db.stream|
    requires QueuedHere(s.db, s.db.flows[step.f].env.op, tenant, mode)
    ensures Owes(s'.db.flows[step.f].phase) || InStreamFrom(s'.db, s.db.flows[step.f].env.op, tenant, mode, c)
  {
    if step.StFlowPublish? {
      PublishedIsThere(s, step.f, tenant, mode, c);
    } else {
      UnpublishedOwes(s, step, s');
    }
  }

  lemma CoverStays(s: State, step: Step, s': State, tenant: string, mode: Mode, c: nat, o: string)
    requires AllAddressed(s) && Next(s, step, s') && c <= |s.db.stream| <= |s'.db.stream| && s.db.stream <= s'.db.stream
    requires QueuedHere(s.db, o, tenant, mode) && (Owed(s.db, o) || InStreamFrom(s.db, o, tenant, mode, c))
    ensures Owed(s'.db, o) || InStreamFrom(s'.db, o, tenant, mode, c)
  {
    StepQueues(s, step, s');
    if InStreamFrom(s.db, o, tenant, mode, c) {
      var i :| c <= i < |s.db.stream| && For(s.db.stream[i], tenant, mode) && s.db.stream[i].env.op == o;
      assert s'.db.stream[i] == s.db.stream[i];
    } else {
      var f :| f in s.db.flows && s.db.flows[f].env.op == o && Owes(s.db.flows[f].phase);
      if Mover(step) == Some(f) {
        FlowKeepsOwing(s, step.flow, s', tenant, mode, c);
      }
      assert f in s'.db.flows && s'.db.flows[f].env.op == o;
    }
  }

  lemma SafeStays(s: State, step: Step, s': State, tenant: string, mode: Mode, c: nat)
    requires AllAddressed(s) && Next(s, step, s') && CursorSafe(s.db, tenant, mode, c)
    ensures CursorSafe(s'.db, tenant, mode, c)
  {
    StepEffects(s, step, s');
    forall o | QueuedHere(s'.db, o, tenant, mode)
      ensures Owed(s'.db, o) || InStreamFrom(s'.db, o, tenant, mode, c)
    {
      if QueuedHere(s.db, o, tenant, mode) {
        CoverStays(s, step, s', tenant, mode, c, o);
      } else {
        QueuedIsOwed(s, step, s', o, tenant, mode);
      }
    }
  }

  /** One message may be passed when nothing QUEUED depends on it now. */
  lemma SafeAdvances(db: Db, tenant: string, mode: Mode, c: nat)
    requires CursorSafe(db, tenant, mode, c) && c < |db.stream|
    requires For(db.stream[c], tenant, mode) ==> !QueuedHere(db, db.stream[c].env.op, tenant, mode)
    ensures CursorSafe(db, tenant, mode, c + 1)
  {
    forall o | QueuedHere(db, o, tenant, mode) && !Owed(db, o)
      ensures InStreamFrom(db, o, tenant, mode, c + 1)
    {
      var i :| c <= i < |db.stream| && For(db.stream[i], tenant, mode) && db.stream[i].env.op == o;
      assert i != c;
    }
  }

  // ----- Pollers -----

  ghost predicate PlaceSafe(db: Db, p: PollPlace) {
    CursorSafe(db, p.tenant, Private, p.i) && p.i <= p.end <= |db.stream|
  }

  ghost predicate AtMessage(db: Db, p: PollPlace, op: string) {
    && PlaceSafe(db, p) && p.i < p.end
    && ForPrivate(db.stream[p.i], p.tenant) && db.stream[p.i].env.op == op
  }

  ghost predicate PollSafe(db: Db, x: Handler) {
    match x
    case PollRead(tenant, _, cursor) => CursorSafe(db, tenant, Private, cursor)
    case PollAt(p) => PlaceSafe(db, p)
    case PollCheck(p, op) => AtMessage(db, p, op)
    case PollSet(p, _) => PlaceSafe(db, p)
    case Claiming(c, _) =>
      c.resume.Some? ==> AtMessage(db, c.resume.value, c.op) && c.expected == Some(c.resume.value.tenant)
    case _ => true
  }

  ghost predicate CursorsSafe(s: State) {
    && (forall t :: CursorSafe(s.db, t, Private, CursorOf(s.db, t)))
    && (forall t, mode :: CursorSafe(s.db, t, mode, 0))
    && (forall h :: h in s.handlers ==> PollSafe(s.db, s.handlers[h]))
  }

  lemma PollSafeStays(s: State, step: Step, s': State, x: Handler)
    requires AllAddressed(s) && Next(s, step, s') && PollSafe(s.db, x)
    ensures PollSafe(s'.db, x)
  {
    StepEffects(s, step, s');
    match x
    case PollRead(tenant, _, cursor) => SafeStays(s, step, s', tenant, Private, cursor);
    case PollAt(p) => SafeStays(s, step, s', p.tenant, Private, p.i);
    case PollCheck(p, _) => SafeStays(s, step, s', p.tenant, Private, p.i);
    case PollSet(p, _) => SafeStays(s, step, s', p.tenant, Private, p.i);
    case Claiming(c, _) =>
      if c.resume.Some? {
        SafeStays(s, step, s', c.resume.value.tenant, Private, c.resume.value.i);
      }
    case _ =>
  }

  lemma PollMoves(s: State, step: PollStep, s': State)
    requires CursorsSafe(s) && PollNext(s, step, s') && step.h in s'.handlers
    ensures PollSafe(s.db, s'.handlers[step.h])
  {
    match step
    case StPollBegin(_, tenant, _) => assert CursorSafe(s.db, tenant, Private, CursorOf(s.db, tenant));
    case StPollFetch(h) => assert PollSafe(s.db, s.handlers[h]);
    case StPollLook(h) =>
      var p := s.handlers[h].place;
      assert PlaceSafe(s.db, p);
      if p.i < p.end && !ForPrivate(s.db.stream[p.i], p.tenant) {
        SafeAdvances(s.db, p.tenant, Private, p.i);
      }
    case StPollStatus(h) =>
      var p := s.handlers[h].place;
      assert AtMessage(s.db, p, s.handlers[h].op);
      if Passable(s.db, s.handlers[h].op, p.tenant) {
        SafeAdvances(s.db, p.tenant, Private, p.i);
      }
    case StPollStore(h, _) => assert PollSafe(s.db, s.handlers[h]);
  }

  lemma ClaimMoves(s: State, step: ClaimStep, s': State)
    requires AllAddressed(s) && CursorsSafe(s) && ClaimNext(s, step, s') && step.h in s'.handlers
    ensures PollSafe(s'.db, s'.handlers[step.h])
  {
    if step.StClaimBegin? {
    } else {
      var x := s.handlers[step.h];
      assert PollSafe(s.db, x);
      PollSafeStays(s, ByClaim(step), s', x);
      if step.StClaimCommit? && x.c.resume.Some? {
        var p := x.c.resume.value;
        assert AtMessage(s'.db, p, x.c.op);
        SafeAdvances(s'.db, p.tenant, Private, p.i);
      }
      ClaimPlaces(s, step, s');
    }
  }

  /** A claim transaction that ends leaves its poll at the same message, or just after it when it committed. */
  lemma ClaimPlaces(s: State, step: ClaimStep, s': State)
    requires ClaimNext(s, step, s') && !step.StClaimBegin? && step.h in s'.handlers
    ensures
      var x, x' := s.handlers[step.h], s'.handlers[step.h];
      || (x'.Claiming? && x'.c == x.c)
      || (x.c.resume.Some? && x' == PollCheck(x.c.resume.value, x.c.op))
      || (step.StClaimCommit? && x.c.resume.Some?
          && x' == PollSet(x.c.resume.value.(i := x.c.resume.value.i + 1), true))
  {
    match step
    case StLockRow(_) =>
    case StLockTenant(_) =>
    case StCount(_) =>
    case StClaimWrite(_) =>
    case StClaimCommit(_) =>
  }

  lemma ActorPollSafe(s: State, step: Step, s': State, h: nat)
    requires AllAddressed(s) && CursorsSafe(s) && Next(s, step, s') && ActorOf(step) == Some(h) && h in s'.handlers
    ensures PollSafe(s'.db, s'.handlers[h])
  {
    if step.ByClaim? {
      ClaimMoves(s, step.claim, s');
    } else if step.ByPoll? {
      PollMoves(s, step.poll, s');
      PollSafeStays(s, step, s', s'.handlers[h]);
    } else if !step.ByFlow? {
      NoPlace(s, step, s', h);
    }
  }

  lemma StepCursors(s: State, step: Step, s': State)
    requires AllAddressed(s) && CursorsSafe(s) && Next(s, step, s')
    ensures CursorsSafe(s')
  {
    StepLocal(s, step, s');
    StepQueues(s, step, s');
    forall t
      ensures CursorSafe(s'.db, t, Private, CursorOf(s'.db, t))
    {
      if CursorOf(s'.db, t) != CursorOf(s.db, t) {
        assert PollSafe(s.db, s.handlers[step.poll.h]);
      }
      assert CursorSafe(s.db, t, Private, CursorOf(s'.db, t));
      SafeStays(s, step, s', t, Private, CursorOf(s'.db, t));
    }
    forall t, mode
      ensures CursorSafe(s'.db, t, mode, 0)
    {
      assert CursorSafe(s.db, t, mode, 0);
      SafeStays(s, step, s', t, mode, 0);
    }
    forall h | h in s'.handlers
      ensures PollSafe(s'.db, s'.handlers[h])
    {
      if ActorOf(step) == Some(h) {
        ActorPollSafe(s, step, s', h);
      } else {
        PollSafeStays(s, step, s', s.handlers[h]);
      }
    }
  }

  lemma {:induction false} RunCursors(trace: seq<State>, steps: seq<Step>, i: nat)
    requires Run(trace, steps) && i <= |steps|
    ensures CursorsSafe(trace[i])
  {
    if i > 0 {
      RunCursors(trace, steps, i - 1);
      RunAddressed(trace, steps, i - 1);
      StepCursors(trace[i - 1], steps[i - 1], trace[i]);
    }
  }

  /** In any run: a private QUEUED operation has a message its tenant's cursor has not passed, or is still owed one. */
  lemma QueuedNeverPassed(trace: seq<State>, steps: seq<Step>, i: nat, tenant: string, o: string)
    requires Run(trace, steps) && i <= |steps| && QueuedHere(trace[i].db, o, tenant, Private)
    ensures
      || (exists k :: CursorOf(trace[i].db, tenant) <= k < |trace[i].db.stream|
            && ForPrivate(trace[i].db.stream[k], tenant) && trace[i].db.stream[k].env.op == o)
      || (exists f :: f in trace[i].db.flows && trace[i].db.flows[f].env.op == o && Owes(trace[i].db.flows[f].phase))
  {
    RunCursors(trace, steps, i);
    assert CursorSafe(trace[i].db, tenant, Private, CursorOf(trace[i].db, tenant));
  }

  /** In any run: whatever value a poller is about to store, forwards or backwards, is safe at that moment. */
  lemma StoredCursorIsSafe(trace: seq<State>, steps: seq<Step>, i: nat, h: nat)
    requires Run(trace, steps) && i <= |steps| && CanPollStore(trace[i], h)
    ensures CursorSafe(trace[i].db, trace[i].handlers[h].place.tenant, Private, trace[i].handlers[h].place.i)
  {
    RunCursors(trace, steps, i);
    assert PollSafe(trace[i].db, trace[i].handlers[h]);
  }

  /**
   In any run, for private and cloud operations alike: once the workflow steps that queued it are through,
   however often they crashed and ran again, a QUEUED operation has at least one message.
   */
  lemma QueuedIsPublished(trace: seq<State>, steps: seq<Step>, i: nat, o: string)
    requires Run(trace, steps) && i <= |steps| && o in trace[i].db.rows && trace[i].db.rows[o].status == Queued
    requires forall f :: f in trace[i].db.flows && trace[i].db.flows[f].env.op == o ==>
        !Owes(trace[i].db.flows[f].phase)
    ensures
      exists k :: 0 <= k < |trace[i].db.stream| && trace[i].db.stream[k] == Job(EnvelopeOf(o, trace[i].db.rows[o]))
  {
    RunCursors(trace, steps, i);
    RunAddressed(trace, steps, i);
    var db, r := trace[i].db, trace[i].db.rows[o];
    assert CursorSafe(db, r.tenant, r.mode, 0) && QueuedHere(db, o, r.tenant, r.mode);
    var k :| 0 <= k < |db.stream| && For(db.stream[k], r.tenant, r.mode) && db.stream[k].env.op == o;
    assert db.stream[k] == Job(EnvelopeOf(o, r));
  }
}
