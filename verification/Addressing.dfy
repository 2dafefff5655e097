/** Every envelope in flight names an existing operation and carries that operation's own tenant and mode. */
module Addressing {
  import opened Domain
  import opened Tables
  import opened Protocol
  import opened Effects

  /** Envelopes carry their operation's own tenant and mode. */
  predicate Addressed(db: Db, env: Envelope) {
    env.op in db.rows && env.op in db.history && env == EnvelopeOf(env.op, db.rows[env.op])
  }

  ghost predicate AllAddressed(s: State) {
    && s.db.history.Keys == s.db.rows.Keys
    && (forall f :: f in s.db.flows ==> Addressed(s.db, s.db.flows[f].env) && f.op == s.db.flows[f].env.op)
    && (forall i :: 0 <= i < |s.db.stream| && s.db.stream[i].Job? ==> Addressed(s.db, s.db.stream[i].env))
    && (forall h :: h in s.handlers ==> HandlerAddressed(s.db, s.handlers[h]))
  }

  ghost predicate HandlerAddressed(db: Db, x: Handler) {
    match x
    case Starting(flow, env, _, after) => Addressed(db, env) && flow.op == env.op && AfterAddressed(db, after)
    case Failing(op, _, _, _, env, _, _) => Addressed(db, env) && env.op == op
    case Reaping(items, _) => ItemsAddressed(db, items)
    case _ => true
  }

  ghost predicate AfterAddressed(db: Db, a: After) {
    a.MoreReaping? ==> ItemsAddressed(db, a.items)
  }

  ghost predicate ItemsAddressed(db: Db, items: seq<Seen>) {
    forall i :: 0 <= i < |items| ==> Addressed(db, items[i].env) && items[i].env.op == items[i].op
  }

  lemma AddressStays(db: Db, db': Db, env: Envelope)
    requires Addressed(db, env) && Grows(db, db') && db.history.Keys <= db'.history.Keys
    ensures Addressed(db', env)
  {
    assert SameIdentity(db.rows[env.op], db'.rows[env.op]);
  }

  lemma ItemsStay(db: Db, db': Db, items: seq<Seen>)
    requires ItemsAddressed(db, items) && Grows(db, db') && db.history.Keys <= db'.history.Keys
    ensures ItemsAddressed(db', items)
  {
    forall i | 0 <= i < |items|
      ensures Addressed(db', items[i].env)
    {
      AddressStays(db, db', items[i].env);
    }
  }

  lemma HandlerStays(db: Db, db': Db, x: Handler)
    requires HandlerAddressed(db, x) && Grows(db, db') && db.history.Keys <= db'.history.Keys
    ensures HandlerAddressed(db', x)
  {
    match x
    case Starting(_, env, _, after) =>
      AddressStays(db, db', env);
      if after.MoreReaping? {
        ItemsStay(db, db', after.items);
      }
    case Failing(_, _, _, _, env, _, _) => AddressStays(db, db', env);
    case Reaping(items, _) => ItemsStay(db, db', items);
    case _ =>
  }

  /** What the moving handler becomes is addressed in the state before or after its step. */
  lemma ActorAddressed(s: State, step: Step, s': State, h: nat)
    requires AllAddressed(s) && Next(s, step, s') && ActorOf(step) == Some(h) && h in s'.handlers
    ensures HandlerAddressed(s.db, s'.handlers[h])
  {
    match step
    case ByCreate(x) => CreateAddressed(s, x, s');
    case ByClaim(x) => ClaimAddressed(s, x, s');
    case ByOwner(x) => OwnerAddressed(s, x, s', h);
    case ByPoll(x) => PollAddressed(s, x, s');
    case ByReap(x) => ReapAddressed(s, x, s', h);
  }

  lemma CreateAddressed(s: State, step: CreateStep, s': State)
    requires CreateNext(s, step, s')
    requires AllAddressed(s)
    requires step.h in s'.handlers
    ensures HandlerAddressed(s.db, s'.handlers[step.h])
  {
    match step
    case StInsert(_, _, _, _, _, _, _) =>
    case StReadBack(_, _) =>
    case StStart(_) =>
  }

  lemma ClaimAddressed(s: State, step: ClaimStep, s': State)
    requires ClaimNext(s, step, s')
    requires AllAddressed(s)
    requires step.h in s'.handlers
    ensures HandlerAddressed(s.db, s'.handlers[step.h])
  {
    match step
    case StClaimBegin(_, _, _, _) =>
    case StLockRow(_) =>
    case StLockTenant(_) =>
    case StCount(_) =>
    case StClaimWrite(_) =>
    case StClaimCommit(_) =>
  }

  lemma OwnerAddressed(s: State, step: OwnerStep, s': State, h: nat)
    requires OwnerNext(s, step, s')
    requires AllAddressed(s)
    requires ActorOf(ByOwner(step)) == Some(h) && h in s'.handlers
    ensures HandlerAddressed(s.db, s'.handlers[h])
  {
    match step
    case StHeartbeat(_, _, _) =>
    case StComplete(_, _, _) =>
    case StFailRead(_, _, _, _, _) =>
    case StFailWrite(_) =>
    case StCancel(_, _) =>
    case StRedrive(_, _, _, _) =>
  }

  lemma PollAddressed(s: State, step: PollStep, s': State)
    requires PollNext(s, step, s')
    requires AllAddressed(s)
    requires step.h in s'.handlers
    ensures HandlerAddressed(s.db, s'.handlers[step.h])
  {
    match step
    case StPollBegin(_, _, _) =>
    case StPollFetch(_) =>
    case StPollLook(_) =>
    case StPollStatus(_) =>
    case StPollStore(_, _) =>
  }

  lemma ReapAddressed(s: State, step: ReapStep, s': State, h: nat)
    requires ReapNext(s, step, s')
    requires AllAddressed(s)
    requires ActorOf(ByReap(step)) == Some(h) && h in s'.handlers
    ensures HandlerAddressed(s.db, s'.handlers[h])
  {
    match step
    case StReapSelect(_, _) =>
    case StReapWrite(_) => FirstAddressed(s, h);
    case StReapSkip(_) => FirstAddressed(s, h);
    case StTick(_) =>
    case StAbort(_) =>
  }

  lemma FirstAddressed(s: State, h: nat)
    requires AllAddressed(s) && h in s.handlers && s.handlers[h].Reaping? && s.handlers[h].items != []
    ensures ItemsAddressed(s.db, s.handlers[h].items[1..])
    ensures
      var it := s.handlers[h].items[0];
      Addressed(s.db, it.env) && it.env.op == it.op
  {
    assert HandlerAddressed(s.db, s.handlers[h]);
  }

  lemma FlowsAddressed(s: State, step: Step, s': State)
    requires AllAddressed(s) && Next(s, step, s') && Grows(s.db, s'.db) && s.db.history.Keys <= s'.db.history.Keys
    ensures forall f :: f in s'.db.flows ==> Addressed(s'.db, s'.db.flows[f].env) && f.op == s'.db.flows[f].env.op
    ensures forall i :: 0 <= i < |s'.db.stream| && s'.db.stream[i].Job? ==> Addressed(s'.db, s'.db.stream[i].env)
  {
    StepQueues(s, step, s');
    forall f | f in s'.db.flows
      ensures Addressed(s'.db, s'.db.flows[f].env) && f.op == s'.db.flows[f].env.op
    {
      if f in s.db.flows {
        AddressStays(s.db, s'.db, s.db.flows[f].env);
      } else {
        StartAddressed(s, step.create, s');
        AddressStays(s.db, s'.db, s'.db.flows[f].env);
      }
    }
    forall i | 0 <= i < |s'.db.stream| && s'.db.stream[i].Job?
      ensures Addressed(s'.db, s'.db.stream[i].env)
    {
      AddressStays(s.db, s'.db, s'.db.stream[i].env);
    }
  }

  lemma StartAddressed(s: State, step: CreateStep, s': State)
    requires AllAddressed(s) && step.StStart? && CreateNext(s, step, s')
    ensures forall f :: f in s'.db.flows && f !in s.db.flows ==>
        Addressed(s.db, s'.db.flows[f].env) && f.op == s'.db.flows[f].env.op
  {
    match step
    case StStart(h) =>
      var x := s.handlers[h];
      assert HandlerAddressed(s.db, x);
      assert s'.db == RunWorkflow(s.db, x.flow, x.env, x.notBefore);
  }

  lemma StepAddressed(s: State, step: Step, s': State)
    requires AllAddressed(s) && Next(s, step, s')
    ensures AllAddressed(s')
  {
    StepEffects(s, step, s');
    FlowsAddressed(s, step, s');
    forall h | h in s'.handlers
      ensures HandlerAddressed(s'.db, s'.handlers[h])
    {
      AddressedBefore(s, step, s', h);
      HandlerStays(s.db, s'.db, s'.handlers[h]);
    }
  }

  /** Whoever moved or not, what a handler holds after the step described the tables before it. */
  lemma AddressedBefore(s: State, step: Step, s': State, h: nat)
    requires AllAddressed(s) && Next(s, step, s') && h in s'.handlers
    ensures HandlerAddressed(s.db, s'.handlers[h])
  {
    if ActorOf(step) == Some(h) {
      ActorAddressed(s, step, s', h);
    } else {
      StepLocal(s, step, s');
    }
  }

  lemma {:induction false} RunAddressed(trace: seq<State>, steps: seq<Step>, i: nat)
    requires Run(trace, steps) && i <= |steps|
    ensures AllAddressed(trace[i])
  {
    if i > 0 {
      RunAddressed(trace, steps, i - 1);
      StepAddressed(trace[i - 1], steps[i - 1], trace[i]);
    }
  }
}
