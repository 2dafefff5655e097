/** The tenant concurrency limit under interleaved claim transactions, in every run. */
module Concurrency {
  import opened Domain
  import opened Rows
  import opened Tables
  import opened Protocol
  import opened Effects

  predicate HoldsRow(s: State, h: nat, x: Handler) {
    x.Claiming? && !x.phase.WantRow? ==>
      && x.c.op in s.rowLocks && s.rowLocks[x.c.op] == h
      && x.c.op in s.db.rows && s.db.rows[x.c.op].tenant == x.phase.tenant && Claimable(s.db.rows[x.c.op].status)
  }

  predicate HoldsTenant(s: State, h: nat, x: Handler) {
    x.Claiming? && (x.phase.HasTenant? || x.phase.Counted? || x.phase.Written?) ==>
      && x.phase.tenant in s.tenantLocks && s.tenantLocks[x.phase.tenant] == h
      && x.phase.tenant in s.db.limits
      && (x.phase.HasTenant? || x.phase.Counted? ==> x.phase.limit == s.db.limits[x.phase.tenant])
      && (x.phase.Counted? ==>
            x.phase.running < x.phase.limit && RunningCount(s.db.rows, x.phase.tenant) <= x.phase.running)
      && (x.phase.Written? ==> RunningCount(s.db.rows, x.phase.tenant) < s.db.limits[x.phase.tenant])
  }

  ghost predicate LocksHeld(s: State) {
    forall h :: h in s.handlers ==> HoldsRow(s, h, s.handlers[h]) && HoldsTenant(s, h, s.handlers[h])
  }

  ghost predicate WithinLimits(db: Db) {
    forall t :: t in db.limits ==> RunningCount(db.rows, t) <= db.limits[t]
  }

  predicate Claims(db: Db, e: Effect, tenant: string) {
    e.Changed? && e.u.Claim? && e.o in db.rows && db.rows[e.o].tenant == tenant
  }

  /** Only a claim adds a RUNNING operation, and it adds one. */
  lemma CountAfter(db: Db, e: Effect, db': Db, tenant: string)
    requires Follows(db, e, db')
    ensures RunningCount(db'.rows, tenant) <= RunningCount(db.rows, tenant) + if Claims(db, e, tenant) then 1 else 0
  {
    var before, after := RunningSet(db.rows, tenant), RunningSet(db'.rows, tenant);
    if Claims(db, e, tenant) {
      SubsetSize(after, before + {e.o});
    } else {
      SubsetSize(after, before);
    }
  }

  /** Row statements respect row locks: only the claim transaction that holds the lock writes a locked row. */
  predicate Respects(s: State, step: Step) {
    var e := EffectOf(s, step);
    e.Changed? ==>
      Free(s, e.o) ||
      (step.ByClaim? && step.claim.StClaimCommit? && step.claim.h in s.handlers
       && s.handlers[step.claim.h].Claiming? && s.handlers[step.claim.h].phase.Written?
       && e.o == s.handlers[step.claim.h].c.op)
  }

  lemma StepRespects(s: State, step: Step, s': State)
    requires Next(s, step, s')
    ensures Respects(s, step)
    ensures EffectOf(s, step).Changed? && EffectOf(s, step).u.Claim? ==> step.ByClaim? && step.claim.StClaimCommit?
  {
    match step
    case ByCreate(_) =>
    case ByFlow(x) => if x.StFlowUpdate? { }
    case ByClaim(x) => if x.StClaimCommit? { }
    case ByOwner(x) => OwnerRespects(s, x, s');
    case ByPoll(_) =>
    case ByReap(x) => if x.StReapWrite? { }
  }

  lemma OwnerRespects(s: State, step: OwnerStep, s': State)
    requires OwnerNext(s, step, s')
    ensures OwnerEffect(s, step).Changed? ==> Free(s, OwnerEffect(s, step).o) && !OwnerEffect(s, step).u.Claim?
  {
    match step
    case StHeartbeat(_, _, _) =>
    case StComplete(_, _, _) =>
    case StFailRead(_, _, _, _, _) =>
    case StFailWrite(_) =>
    case StCancel(_, _) =>
    case StRedrive(_, _, _, _) =>
  }

  /** Who writes a locked row has locked it. */
  lemma WriterHoldsRow(s: State, step: Step, s': State)
    requires LocksHeld(s) && Next(s, step, s')
    ensures
      var e := EffectOf(s, step);
      e.Changed? && e.o in s.rowLocks ==> ActorOf(step) == Some(s.rowLocks[e.o])
  {
    StepRespects(s, step, s');
  }

  lemma LockedRowStays(s: State, step: Step, s': State, k: nat, o: string)
    requires LocksHeld(s) && Next(s, step, s') && ActorOf(step) != Some(k)
    requires o in s.rowLocks && s.rowLocks[o] == k && o in s.db.rows
    ensures o in s'.db.rows && s'.db.rows[o] == s.db.rows[o]
  {
    StepEffects(s, step, s');
    WriterHoldsRow(s, step, s');
  }

  lemma BystanderKeepsRow(s: State, step: Step, s': State, k: nat)
    requires LocksHeld(s) && Next(s, step, s') && k in s.handlers && ActorOf(step) != Some(k)
    ensures k in s'.handlers && s'.handlers[k] == s.handlers[k] && HoldsRow(s', k, s'.handlers[k])
  {
    StepLocal(s, step, s');
    var x := s.handlers[k];
    if x.Claiming? && !x.phase.WantRow? {
      assert HoldsRow(s, k, x);
      LockedRowStays(s, step, s', k, x.c.op);
    }
  }

  /** Who claims for a tenant has locked it. */
  lemma ClaimerHoldsTenant(s: State, step: Step, s': State, tenant: string)
    requires LocksHeld(s) && Next(s, step, s') && Claims(s.db, EffectOf(s, step), tenant)
    ensures tenant in s.tenantLocks && ActorOf(step) == Some(s.tenantLocks[tenant])
    ensures tenant in s.db.limits && RunningCount(s.db.rows, tenant) < s.db.limits[tenant]
  {
    StepRespects(s, step, s');
    var h := step.claim.h;
    assert HoldsRow(s, h, s.handlers[h]) && HoldsTenant(s, h, s.handlers[h]);
  }

  lemma LockedTenantStays(s: State, step: Step, s': State, k: nat, tenant: string)
    requires LocksHeld(s) && Next(s, step, s') && ActorOf(step) != Some(k)
    requires tenant in s.tenantLocks && s.tenantLocks[tenant] == k
    ensures RunningCount(s'.db.rows, tenant) <= RunningCount(s.db.rows, tenant)
  {
    StepEffects(s, step, s');
    CountAfter(s.db, EffectOf(s, step), s'.db, tenant);
    if Claims(s.db, EffectOf(s, step), tenant) {
      ClaimerHoldsTenant(s, step, s', tenant);
    }
  }

  lemma BystanderKeepsTenant(s: State, step: Step, s': State, k: nat)
    requires LocksHeld(s) && Next(s, step, s') && k in s.handlers && ActorOf(step) != Some(k)
    ensures k in s'.handlers && HoldsTenant(s', k, s'.handlers[k])
  {
    StepLocal(s, step, s');
    LimitsStay(s, step, s');
    var x := s.handlers[k];
    if x.Claiming? && (x.phase.HasTenant? || x.phase.Counted? || x.phase.Written?) {
      assert HoldsTenant(s, k, x);
      LockedTenantStays(s, step, s', k, x.phase.tenant);
    }
  }

  lemma LimitsStay(s: State, step: Step, s': State)
    requires Next(s, step, s')
    ensures s'.db.limits == s.db.limits
  {
    StepEffects(s, step, s');
  }

  /** A handler that does not move keeps what its locks promise it. */
  lemma BystanderKeepsLocks(s: State, step: Step, s': State, k: nat)
    requires LocksHeld(s) && Next(s, step, s') && k in s.handlers && ActorOf(step) != Some(k)
    ensures k in s'.handlers && HoldsRow(s', k, s'.handlers[k]) && HoldsTenant(s', k, s'.handlers[k])
  {
    BystanderKeepsRow(s, step, s', k);
    BystanderKeepsTenant(s, step, s', k);
  }

  lemma ActorKeepsLocks(s: State, step: Step, s': State, h: nat)
    requires LocksHeld(s) && Next(s, step, s') && ActorOf(step) == Some(h) && h in s'.handlers
    ensures HoldsRow(s', h, s'.handlers[h]) && HoldsTenant(s', h, s'.handlers[h])
  {
    if step.ByClaim? {
      ClaimKeepsLocks(s, step.claim, s');
    } else {
      OthersHoldNothing(s, step, s', h);
    }
  }

  /** A handler that has just moved, other than by a step of a claim, is not inside a transaction that holds locks. */
  lemma OthersHoldNothing(s: State, step: Step, s': State, h: nat)
    requires Next(s, step, s') && ActorOf(step) == Some(h) && h in s'.handlers && !step.ByClaim?
    ensures s'.handlers[h].Claiming? ==> s'.handlers[h].phase.WantRow?
  {
    if step.ByPoll? {
      PollHoldsNothing(s, step.poll, s');
    } else if !step.ByFlow? {
      NoPlace(s, step, s', h);
    }
  }

  lemma PollHoldsNothing(s: State, step: PollStep, s': State)
    requires PollNext(s, step, s') && step.h in s'.handlers
    ensures s'.handlers[step.h].Claiming? ==> s'.handlers[step.h].phase.WantRow?
  {
  }

  lemma ClaimKeepsLocks(s: State, step: ClaimStep, s': State)
    requires LocksHeld(s) && ClaimNext(s, step, s') && step.h in s'.handlers
    ensures HoldsRow(s', step.h, s'.handlers[step.h]) && HoldsTenant(s', step.h, s'.handlers[step.h])
  {
    match step
    case StClaimBegin(_, _, _, _) =>
    case StLockRow(_) =>
    case StLockTenant(_) =>
    case StCount(_) =>
    case StClaimWrite(_) =>
    case StClaimCommit(_) =>
  }

  lemma StepKeepsLimits(s: State, step: Step, s': State)
    requires LocksHeld(s) && WithinLimits(s.db) && Next(s, step, s')
    ensures LocksHeld(s') && WithinLimits(s'.db)
  {
    StepEffects(s, step, s');
    StepLocal(s, step, s');
    StepRespects(s, step, s');
    forall k | k in s'.handlers
      ensures HoldsRow(s', k, s'.handlers[k]) && HoldsTenant(s', k, s'.handlers[k])
    {
      if ActorOf(step) == Some(k) {
        ActorKeepsLocks(s, step, s', k);
      } else {
        BystanderKeepsLocks(s, step, s', k);
      }
    }
    var e := EffectOf(s, step);
    forall t | t in s'.db.limits
      ensures RunningCount(s'.db.rows, t) <= s'.db.limits[t]
    {
      CountAfter(s.db, e, s'.db, t);
      if Claims(s.db, e, t) {
        ClaimerHoldsTenant(s, step, s', t);
      }
    }
  }

  lemma {:induction false} RunLocks(trace: seq<State>, steps: seq<Step>, i: nat)
    requires Run(trace, steps) && i <= |steps|
    ensures LocksHeld(trace[i]) && WithinLimits(trace[i].db)
  {
    if i == 0 {
      forall t | t in trace[0].db.limits
        ensures RunningCount(trace[0].db.rows, t) <= trace[0].db.limits[t]
      {
        assert RunningSet(trace[0].db.rows, t) == {};
      }
    } else {
      RunLocks(trace, steps, i - 1);
      StepKeepsLimits(trace[i - 1], steps[i - 1], trace[i]);
    }
  }

  /** In any run no tenant ever has more RUNNING operations than its concurrency limit. */
  lemma ConcurrencyLimit(trace: seq<State>, steps: seq<Step>, i: nat, tenant: string)
    requires Run(trace, steps) && i <= |steps| && tenant in trace[i].db.limits
    ensures
      var running := set o | o in trace[i].db.rows && trace[i].db.rows[o].tenant == tenant
          && trace[i].db.rows[o].status == Running;
      |running| <= trace[i].db.limits[tenant]
  {
    RunLocks(trace, steps, i);
  }

  /** In any run the claim UPDATE affects one row: the "rows affected is not one" branch is never taken. */
  lemma ClaimAlwaysHits(trace: seq<State>, steps: seq<Step>, i: nat, h: nat)
    requires Run(trace, steps) && i <= |steps| && CanClaimWrite(trace[i], h)
    ensures ClaimHits(trace[i], h)
  {
    RunLocks(trace, steps, i);
    assert HoldsRow(trace[i], h, trace[i].handlers[h]);
  }
}
