/** Idempotent creation: any number of creates racing on one (tenant, idempotency key), in every run. */
module Creation {
  import opened Domain
  import opened Tables
  import opened Protocol
  import opened Effects
  import opened Addressing

  ghost predicate KeysUnique(db: Db) {
    forall o, o' :: o in db.rows && o' in db.rows && HasKey(db, o, db.rows[o'].tenant, db.rows[o'].key) ==> o == o'
  }

  /** Some handler is between the commit of the operation's row and the RunWorkflow call with this id. */
  ghost predicate WillStart(s: State, f: FlowId) {
    exists h :: h in s.handlers && s.handlers[h].Starting? && s.handlers[h].flow == f
  }

  /** A create past its INSERT: the key is taken, and if the row is its own, nothing was started for it yet. */
  ghost predicate InsertedSound(s: State, h: nat, x: Handler) {
    x.Inserted? ==>
      && KeyTaken(s.db, x.tenant, x.key)
      && (x.id in s.db.rows ==> HasKey(s.db, x.id, x.tenant, x.key))
      && OperationFlow(x.id) !in s.db.flows && !WillStart(s, OperationFlow(x.id))
      && (forall k :: k in s.handlers && k != h && s.handlers[k].Inserted? ==> s.handlers[k].id != x.id)
  }

  /** The row's creator is still on its way to RunWorkflow. */
  ghost predicate BeingCreated(s: State, o: string) {
    exists h :: h in s.handlers && s.handlers[h].Inserted? && s.handlers[h].id == o
  }

  ghost predicate CreationSound(s: State) {
    && KeysUnique(s.db)
    && (forall h :: h in s.handlers ==> InsertedSound(s, h, s.handlers[h]))
    && (forall o :: o in s.db.rows ==>
          BeingCreated(s, o) || WillStart(s, OperationFlow(o)) || OperationFlow(o) in s.db.flows)
    && (forall t, k, o :: (t, k, o) in s.replies ==> HasKey(s.db, o, t, k))
  }

  lemma EffectKeepsKeys(db: Db, e: Effect, db': Db)
    requires KeysUnique(db) && Follows(db, e, db') && (e.Added? ==> !KeyTaken(db, e.r.tenant, e.r.key))
    ensures KeysUnique(db')
  {
    FollowsKeepsIdentity(db, e, db');
  }

  lemma AddsOnlyFreeKeys(s: State, step: Step, s': State)
    requires Next(s, step, s') && EffectOf(s, step).Added?
    ensures step.ByCreate? && step.create.StInsert? && EffectOf(s, step).o == step.create.id
    ensures !KeyTaken(s.db, EffectOf(s, step).r.tenant, EffectOf(s, step).r.key)
    ensures EffectOf(s, step).r.tenant == step.create.tenant && EffectOf(s, step).r.key == step.create.key
  {
    StepEffects(s, step, s');
  }

  lemma KeyStaysTaken(db: Db, db': Db, tenant: string, key: string)
    requires KeyTaken(db, tenant, key) && Grows(db, db')
    ensures KeyTaken(db', tenant, key)
  {
    var o :| o in db.rows && db.rows[o].tenant == tenant && db.rows[o].key == key;
    assert SameIdentity(db.rows[o], db'.rows[o]);
  }

  /** A new RunWorkflow intention is the one the step committed, and none is dropped before the workflow exists. */
  lemma WillStartAfter(s: State, step: Step, s': State, f: FlowId)
    requires Next(s, step, s')
    ensures WillStart(s', f) ==> WillStart(s, f) || NewStart(s, step) == Some(f)
    ensures NewStart(s, step) == Some(f) ==> WillStart(s', f)
    ensures WillStart(s, f) ==> WillStart(s', f) || f in s'.db.flows
  {
    StepLocal(s, step, s');
    StepStarts(s, step, s');
    if WillStart(s, f) {
      IntentionKept(s, step, s', f);
    }
    if WillStart(s', f) {
      IntentionKnown(s, step, s', f);
    }
  }

  lemma IntentionKnown(s: State, step: Step, s': State, f: FlowId)
    requires Local(s, ActorOf(step), s') && Starts(s, step, s') && WillStart(s', f)
    ensures WillStart(s, f) || NewStart(s, step) == Some(f)
  {
    var h :| h in s'.handlers && s'.handlers[h].Starting? && s'.handlers[h].flow == f;
    assert ActorOf(step) != Some(h) ==> h in s.handlers && s.handlers[h] == s'.handlers[h];
  }

  lemma IntentionKept(s: State, step: Step, s': State, f: FlowId)
    requires Next(s, step, s') && Local(s, ActorOf(step), s') && Starts(s, step, s') && WillStart(s, f)
    ensures WillStart(s', f) || f in s'.db.flows
  {
    var h :| h in s.handlers && s.handlers[h].Starting? && s.handlers[h].flow == f;
    if ActorOf(step) == Some(h) {
      StartAdds(s, step.create, s');
    } else {
      assert s'.handlers[h] == s.handlers[h];
    }
  }

  lemma StartAdds(s: State, step: CreateStep, s': State)
    requires CreateNext(s, step, s') && step.StStart?
    ensures s.handlers[step.h].flow in s'.db.flows
  {
  }

  // ----- Preservation -----

  lemma NothingStartedYet(s: State, step: Step, s': State, h: nat)
    requires CreationSound(s) && Next(s, step, s') && h in s.handlers && s.handlers[h].Inserted?
    requires ActorOf(step) != Some(h)
    ensures OperationFlow(s.handlers[h].id) !in s'.db.flows && !WillStart(s', OperationFlow(s.handlers[h].id))
  {
    var x := s.handlers[h];
    var f := OperationFlow(x.id);
    assert InsertedSound(s, h, x);
    WillStartAfter(s, step, s', f);
    FlowWasMeant(s, step, s', f);
    StartsItsOwn(s, step, x.id);
  }

  lemma FlowWasMeant(s: State, step: Step, s': State, f: FlowId)
    requires Next(s, step, s')
    ensures f in s'.db.flows ==> f in s.db.flows || WillStart(s, f)
  {
    StepQueues(s, step, s');
  }

  /** Only the create that made the row may start its `operation:` workflow. */
  lemma StartsItsOwn(s: State, step: Step, o: string)
    ensures NewStart(s, step) == Some(OperationFlow(o)) ==>
              && step.ByCreate? && step.create.StReadBack? && step.create.h in s.handlers
              && s.handlers[step.create.h].Inserted? && s.handlers[step.create.h].id == o
  {
  }

  lemma BystanderKey(s: State, step: Step, s': State, h: nat)
    requires CreationSound(s) && Next(s, step, s') && h in s.handlers && s.handlers[h].Inserted?
    ensures
      var x := s.handlers[h];
      KeyTaken(s'.db, x.tenant, x.key) && (x.id in s'.db.rows ==> HasKey(s'.db, x.id, x.tenant, x.key))
  {
    StepEffects(s, step, s');
    var x := s.handlers[h];
    assert InsertedSound(s, h, x);
    KeyStaysTaken(s.db, s'.db, x.tenant, x.key);
    assert x.id in s'.db.rows ==> x.id in s.db.rows;
  }

  lemma BystanderInserted(s: State, step: Step, s': State, h: nat)
    requires CreationSound(s) && Next(s, step, s') && h in s.handlers && s.handlers[h].Inserted?
    requires ActorOf(step) != Some(h)
    ensures h in s'.handlers && InsertedSound(s', h, s'.handlers[h])
  {
    StepLocal(s, step, s');
    StepStarts(s, step, s');
    NothingStartedYet(s, step, s', h);
    BystanderKey(s, step, s', h);
    assert InsertedSound(s, h, s.handlers[h]);
  }

  lemma StartHasRow(s: State, f: FlowId)
    requires AllAddressed(s)
    ensures WillStart(s, f) ==> f.op in s.db.rows
  {
    if WillStart(s, f) {
      var k :| k in s.handlers && s.handlers[k].Starting? && s.handlers[k].flow == f;
      assert HandlerAddressed(s.db, s.handlers[k]);
    }
  }

  lemma InsertStartsNothing(s: State, step: CreateStep, s': State)
    requires CreateNext(s, step, s') && step.StInsert?
    ensures WillStart(s', OperationFlow(step.id)) ==> WillStart(s, OperationFlow(step.id))
    ensures s'.db.flows == s.db.flows
  {
    WillStartAfter(s, ByCreate(step), s', OperationFlow(step.id));
  }

  lemma NewInserted(s: State, step: CreateStep, s': State)
    requires CreationSound(s) && AllAddressed(s) && CreateNext(s, step, s') && step.StInsert?
    ensures InsertedSound(s', step.h, s'.handlers[step.h]) && BeingCreated(s', step.id)
  {
    InsertStartsNothing(s, step, s');
    StartHasRow(s, OperationFlow(step.id));
    InsertTakesKey(s, step, s');
    assert s'.handlers == s.handlers[step.h := Inserted(step.id, step.tenant, step.key, step.notBefore)];
  }

  /** After the INSERT the key is taken, and the new id, if it has a row, has it. */
  lemma InsertTakesKey(s: State, step: CreateStep, s': State)
    requires CreateNext(s, step, s') && step.StInsert?
    ensures KeyTaken(s'.db, step.tenant, step.key)
    ensures step.id in s'.db.rows ==> HasKey(s'.db, step.id, step.tenant, step.key)
  {
    if KeyTaken(s.db, step.tenant, step.key) {
      assert s'.db == s.db;
    } else {
      assert HasKey(s'.db, step.id, step.tenant, step.key);
    }
  }

  /** A step that adds a row is its creator's INSERT. */
  lemma AddedByCreate(s: State, step: Step, s': State, o: string)
    requires Next(s, step, s') && o in s'.db.rows && o !in s.db.rows
    ensures step.ByCreate? && step.create.StInsert? && step.create.id == o
  {
    StepEffects(s, step, s');
  }

  /** Reading back, the creator of a row finds it, and goes on to start its workflow. */
  lemma CreatorReadsBack(s: State, step: CreateStep, s': State)
    requires CreationSound(s) && CreateNext(s, step, s') && step.StReadBack? && s.handlers[step.h].id in s.db.rows
    ensures WillStart(s', OperationFlow(s.handlers[step.h].id))
  {
    assert InsertedSound(s, step.h, s.handlers[step.h]);
    assert s'.handlers[step.h].Starting?;
  }

  /** Nobody's `operation:` workflow gets lost between the INSERT and RunWorkflow. */
  lemma CreatorStays(s: State, step: Step, s': State, o: string)
    requires CreationSound(s) && AllAddressed(s) && Next(s, step, s') && o in s'.db.rows
    ensures BeingCreated(s', o) || WillStart(s', OperationFlow(o)) || OperationFlow(o) in s'.db.flows
  {
    if o !in s.db.rows {
      AddedByCreate(s, step, s', o);
      NewInserted(s, step.create, s');
    } else if BeingCreated(s, o) {
      StepStarts(s, step, s');
      StepLocal(s, step, s');
      var h :| h in s.handlers && s.handlers[h].Inserted? && s.handlers[h].id == o;
      if ActorOf(step) == Some(h) {
        CreatorReadsBack(s, step.create, s');
      } else {
        assert s'.handlers[h] == s.handlers[h];
      }
    } else {
      StepQueues(s, step, s');
      WillStartAfter(s, step, s', OperationFlow(o));
    }
  }

  lemma RepliesStay(s: State, step: Step, s': State)
    requires CreationSound(s) && Next(s, step, s')
    ensures forall t, k, o :: (t, k, o) in s'.replies ==> HasKey(s'.db, o, t, k)
  {
    StepEffects(s, step, s');
    NewReplies(s, step, s');
    forall t, k, o | (t, k, o) in s'.replies
      ensures HasKey(s'.db, o, t, k)
    {
      assert HasKey(s.db, o, t, k);
      assert SameIdentity(s.db.rows[o], s'.db.rows[o]);
    }
  }

  lemma NewReplies(s: State, step: Step, s': State)
    requires Next(s, step, s')
    ensures forall t, k, o :: (t, k, o) in s'.replies ==> (t, k, o) in s.replies || HasKey(s.db, o, t, k)
  {
    match step
    case ByCreate(x) =>
    case ByFlow(x) =>
    case ByClaim(x) => ClaimReplies(s, x, s');
    case ByOwner(x) => OwnerReplies(s, x, s');
    case ByPoll(x) => PollReplies(s, x, s');
    case ByReap(x) =>
  }

  lemma ClaimReplies(s: State, step: ClaimStep, s': State)
    requires ClaimNext(s, step, s')
    ensures s'.replies == s.replies
  {
    match step
    case StClaimBegin(_, _, _, _) =>
    case StLockRow(_) =>
    case StLockTenant(_) =>
    case StCount(_) =>
    case StClaimWrite(_) =>
    case StClaimCommit(_) =>
  }

  lemma OwnerReplies(s: State, step: OwnerStep, s': State)
    requires OwnerNext(s, step, s')
    ensures s'.replies == s.replies
  {
    match step
    case StHeartbeat(_, _, _) =>
    case StComplete(_, _, _) =>
    case StFailRead(_, _, _, _, _) =>
    case StFailWrite(_) =>
    case StCancel(_, _) =>
    case StRedrive(_, _, _, _) =>
  }

  lemma PollReplies(s: State, step: PollStep, s': State)
    requires PollNext(s, step, s')
    ensures s'.replies == s.replies
  {
    match step
    case StPollBegin(_, _, _) =>
    case StPollFetch(_) =>
    case StPollLook(_) =>
    case StPollStatus(_) =>
    case StPollStore(_, _) =>
  }

  lemma StepCreation(s: State, step: Step, s': State)
    requires CreationSound(s) && AllAddressed(s) && Next(s, step, s')
    ensures CreationSound(s')
  {
    StepEffects(s, step, s');
    StepLocal(s, step, s');
    StepStarts(s, step, s');
    RepliesStay(s, step, s');
    if EffectOf(s, step).Added? {
      AddsOnlyFreeKeys(s, step, s');
    }
    EffectKeepsKeys(s.db, EffectOf(s, step), s'.db);
    forall h | h in s'.handlers
      ensures InsertedSound(s', h, s'.handlers[h])
    {
      if s'.handlers[h].Inserted? {
        if ActorOf(step) == Some(h) {
          NewInserted(s, step.create, s');
        } else {
          BystanderInserted(s, step, s', h);
        }
      }
    }
    forall o | o in s'.db.rows
      ensures BeingCreated(s', o) || WillStart(s', OperationFlow(o)) || OperationFlow(o) in s'.db.flows
    {
      CreatorStays(s, step, s', o);
    }
  }

  lemma {:induction false} RunCreation(trace: seq<State>, steps: seq<Step>, i: nat)
    requires Run(trace, steps) && i <= |steps|
    ensures CreationSound(trace[i])
  {
    if i > 0 {
      RunCreation(trace, steps, i - 1);
      RunAddressed(trace, steps, i - 1);
      StepCreation(trace[i - 1], steps[i - 1], trace[i]);
    }
  }

  // ----- Results -----

  /** In any run: all answers for one (tenant, key) name the same operation, the only one with that key. */
  lemma AnswersAgree(trace: seq<State>, steps: seq<Step>, i: nat, tenant: string, key: string, o: string)
    requires Run(trace, steps) && i <= |steps| && (tenant, key, o) in trace[i].replies
    ensures HasKey(trace[i].db, o, tenant, key)
    ensures forall o' :: HasKey(trace[i].db, o', tenant, key) ==> o' == o
    ensures forall o' :: (tenant, key, o') in trace[i].replies ==> o' == o
  {
    RunCreation(trace, steps, i);
    assert HasKey(trace[i].db, o, tenant, key);
  }

  /**
   In any run: the ids handed to losing creates start nothing, the winner's starts one workflow, once its
   create got there.
   */
  lemma OneWorkflowPerKey(trace: seq<State>, steps: seq<Step>, i: nat, f: FlowId, f': FlowId)
    requires Run(trace, steps) && i <= |steps|
    requires f in trace[i].db.flows && f.OperationFlow? && f' in trace[i].db.flows && f'.OperationFlow?
    ensures f.op in trace[i].db.rows && f'.op in trace[i].db.rows
    ensures
      var r, r' := trace[i].db.rows[f.op], trace[i].db.rows[f'.op];
      r.tenant == r'.tenant && r.key == r'.key ==> f == f'
  {
    RunCreation(trace, steps, i);
    RunAddressed(trace, steps, i);
  }

  /** In any run: every row's workflow is started or about to be, by the create that inserted it. */
  lemma EveryRowStarts(trace: seq<State>, steps: seq<Step>, i: nat, o: string)
    requires Run(trace, steps) && i <= |steps| && o in trace[i].db.rows
    ensures
      || OperationFlow(o) in trace[i].db.flows
      || (exists h :: h in trace[i].handlers
            && ((trace[i].handlers[h].Starting? && trace[i].handlers[h].flow == OperationFlow(o))
                || (trace[i].handlers[h].Inserted? && trace[i].handlers[h].id == o)))
  {
    RunCreation(trace, steps, i);
  }

  /** In any run: the SELECT after a create's INSERT finds a row, and only one row can answer it. */
  lemma ReadBackFinds(trace: seq<State>, steps: seq<Step>, i: nat, h: nat)
    requires Run(trace, steps) && i <= |steps| && h in trace[i].handlers && trace[i].handlers[h].Inserted?
    ensures exists found :: CanReadBack(trace[i], h, found)
    ensures forall found, found' :: CanReadBack(trace[i], h, found) && CanReadBack(trace[i], h, found') ==>
        found == found'
  {
    RunCreation(trace, steps, i);
    var x := trace[i].handlers[h];
    assert InsertedSound(trace[i], h, x);
    var o :| o in trace[i].db.rows && trace[i].db.rows[o].tenant == x.tenant && trace[i].db.rows[o].key == x.key;
    assert CanReadBack(trace[i], h, o);
  }
}
