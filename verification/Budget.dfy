/**
 The attempt budget, and the two stale reads it survives: a failure report that decides on the attempt
 it read before its UPDATE, and a reaper that works through a batch it read earlier.

 Runs here are disciplined: a worker id has one poll, claim or failure report outstanding at a time
 (the enterprise worker's loop), a committed claim has at least `window` seconds of lease left, and the
 reaper reaches each row of a batch within `window` seconds of its SELECT. `window` is at most the 30
 seconds the shortest heartbeat grants.
 */
module Budget {
  import opened Domain
  import opened Rows
  import opened Tables
  import opened Protocol
  import opened Effects
  import opened Leases

  function WorkerOf(x: Handler): Option<string> {
    match x
    case PollRead(_, worker, _) => Some(worker)
    case PollAt(p) => Some(p.worker)
    case PollCheck(p, _) => Some(p.worker)
    case PollSet(p, _) => Some(p.worker)
    case Claiming(c, _) => Some(c.worker)
    case Failing(_, _, worker, _, _, _, _) => Some(worker)
    case _ => None
  }

  ghost predicate Idle(s: State, worker: string) {
    forall k :: k in s.handlers ==> WorkerOf(s.handlers[k]) != Some(worker)
  }

  ghost predicate Disciplined(s: State, step: Step, window: int) {
    && (step.ByPoll? && step.poll.StPollBegin? ==> Idle(s, step.poll.worker))
    && (step.ByClaim? && step.claim.StClaimBegin? ==> Idle(s, step.claim.worker))
    && (step.ByOwner? && step.owner.StFailRead? ==> Idle(s, step.owner.worker))
    && (step.ByClaim? && step.claim.StClaimCommit? && InClaim(s, step.claim.h) ==>
          s.handlers[step.claim.h].c.startedAt + s.handlers[step.claim.h].c.seconds >= s.db.now + window)
    && (step.ByReap? && step.reap.StReapWrite? && CanReapWrite(s, step.reap.h) ==>
          s.db.now <= s.handlers[step.reap.h].at + window)
  }

  ghost predicate DisciplinedRun(trace: seq<State>, steps: seq<Step>, window: int) {
    && Run(trace, steps)
    && 0 < window <= 30
    && (forall i :: 0 <= i < |steps| ==> Disciplined(trace[i], steps[i], window))
  }

  // ----- Invariant -----

  /** A poll's claim transaction runs for the poll's own worker. */
  predicate OwnClaim(x: Handler) {
    x.Claiming? && x.c.resume.Some? ==> x.c.resume.value.worker == x.c.worker
  }

  ghost predicate OneEach(s: State) {
    && (forall j :: j in s.handlers ==> OwnClaim(s.handlers[j]))
    && (forall j, k :: j in s.handlers && k in s.handlers && j != k && WorkerOf(s.handlers[j]).Some? ==>
          WorkerOf(s.handlers[j]) != WorkerOf(s.handlers[k]))
  }

  /** What a failure report read still describes the row, as long as its worker owns the row. */
  predicate ReportFresh(db: Db, x: Handler) {
    x.Failing? ==>
      && x.op in db.rows && db.rows[x.op].maxAttempts == x.maxAttempts
      && (OwnedBy(db.rows[x.op], x.worker) ==> db.rows[x.op].attempt == x.attempt)
  }

  /** Each row of a batch is in the lease that was read, out of RUNNING, or in a lease that outlives the batch. */
  predicate SeenFresh(db: Db, it: Seen, deadline: int) {
    && it.op in db.rows && db.rows[it.op].maxAttempts == it.maxAttempts
    && (db.rows[it.op].status == Running && db.rows[it.op].expires.Some? ==>
          SameLease(db.rows[it.op], it) || db.rows[it.op].expires.value >= deadline)
  }

  ghost predicate BatchFresh(db: Db, items: seq<Seen>, at: int, window: int) {
    at <= db.now && forall i :: 0 <= i < |items| ==> SeenFresh(db, items[i], at + window)
  }

  ghost predicate BatchesFresh(db: Db, x: Handler, window: int) {
    match x
    case Reaping(items, at) => BatchFresh(db, items, at, window)
    case Starting(_, _, _, after) => after.MoreReaping? ==> BatchFresh(db, after.items, after.at, window)
    case _ => true
  }

  ghost predicate RowsBounded(db: Db) {
    && RowsSound(db)
    && (forall o :: o in db.rows ==> WithinBudget(db.rows[o]) && VersionBounded(db.rows[o], db.history[o]))
  }

  ghost predicate Budgeted(s: State, window: int) {
    && RowsBounded(s.db)
    && OneEach(s)
    && (forall h :: h in s.handlers ==> ReportFresh(s.db, s.handlers[h]) && BatchesFresh(s.db, s.handlers[h], window))
  }

  // ----- Rows -----

  lemma EffectKeepsBounds(db: Db, e: Effect, db': Db)
    requires RowsBounded(db) && Follows(db, e, db') && (e.Changed? ==> Affordable(db.rows[e.o], e.u))
    ensures RowsBounded(db')
  {
    EffectKeepsRowsSound(db, e, db');
    if e.Changed? {
      BudgetKeptExactly(db.rows[e.o], e.u);
      UpdateKeepsVersionBound(db.rows[e.o], db.history[e.o], e.u);
    }
  }

  /** In time, the reaper's UPDATE finds the lease it read, or none it may take. */
  lemma ReapInTime(s: State, step: Step, window: int)
    requires Budgeted(s, window) && Disciplined(s, step, window)
    requires EffectOf(s, step).Changed? && EffectOf(s, step).u.Reap?
    requires Hits(s.db, EffectOf(s, step).o, EffectOf(s, step).u)
    ensures step.ByReap? && step.reap.StReapWrite? && CanReapWrite(s, step.reap.h)
    ensures EffectOf(s, step).o == s.handlers[step.reap.h].items[0].op
    ensures SameLease(s.db.rows[EffectOf(s, step).o], s.handlers[step.reap.h].items[0])
  {
    ReapWritesSeen(s, step);
    FirstSeenFresh(s, step.reap.h, window);
    LeaseIsSeen(s, s.handlers[step.reap.h].items[0], s.handlers[step.reap.h].at + window);
  }

  lemma FirstSeenFresh(s: State, h: nat, window: int)
    requires Budgeted(s, window) && CanReapWrite(s, h)
    ensures SeenFresh(s.db, s.handlers[h].items[0], s.handlers[h].at + window)
  {
    assert BatchesFresh(s.db, s.handlers[h], window);
  }

  /** A lease that has expired before the batch's deadline is the one the batch read. */
  lemma LeaseIsSeen(s: State, it: Seen, deadline: int)
    requires SeenFresh(s.db, it, deadline) && s.db.now <= deadline && Hits(s.db, it.op, ReapUpdate(s, it))
    ensures SameLease(s.db.rows[it.op], it)
  {
  }

  /** The stale reads are harmless: what is written is affordable for the row as it is now. */
  lemma WritesAffordable(s: State, step: Step, window: int)
    requires Budgeted(s, window) && Disciplined(s, step, window)
    requires EffectOf(s, step).Changed? && Hits(s.db, EffectOf(s, step).o, EffectOf(s, step).u)
    ensures Affordable(s.db.rows[EffectOf(s, step).o], EffectOf(s, step).u)
  {
    var e := EffectOf(s, step);
    if e.u.Fail? {
      FailWritesReport(s, step);
      assert ReportFresh(s.db, s.handlers[step.owner.h]);
    } else if e.u.Reap? {
      ReapInTime(s, step, window);
    }
  }

  // ----- Workers stay sequential -----

  /** A handler keeps its worker; a new one has a worker only if it begins a poll, claim or report for it. */
  predicate KeptOrBegun(s: State, step: Step, s': State, h: nat)
    requires h in s'.handlers
  {
    var w := WorkerOf(s'.handlers[h]);
    || w == None
    || (h in s.handlers && w == WorkerOf(s.handlers[h]))
    || (step.ByPoll? && step.poll.StPollBegin? && w == Some(step.poll.worker))
    || (step.ByClaim? && step.claim.StClaimBegin? && w == Some(step.claim.worker))
    || (step.ByOwner? && step.owner.StFailRead? && w == Some(step.owner.worker))
  }

  lemma ClaimKeepsWorker(s: State, step: ClaimStep, s': State)
    requires ClaimNext(s, step, s')
    requires step.h in s'.handlers
    requires step.h in s.handlers ==> OwnClaim(s.handlers[step.h])
    ensures OwnClaim(s'.handlers[step.h])
    ensures KeptOrBegun(s, ByClaim(step), s', step.h)
  {
    match step
    case StClaimBegin(_, _, _, _) =>
    case StLockRow(_) =>
    case StLockTenant(_) =>
    case StCount(_) =>
    case StClaimWrite(_) =>
    case StClaimCommit(_) =>
  }

  lemma PollKeepsWorker(s: State, step: PollStep, s': State)
    requires PollNext(s, step, s')
    requires step.h in s'.handlers
    requires step.h in s.handlers ==> OwnClaim(s.handlers[step.h])
    ensures OwnClaim(s'.handlers[step.h])
    ensures KeptOrBegun(s, ByPoll(step), s', step.h)
  {
    match step
    case StPollBegin(_, _, _) =>
    case StPollFetch(_) =>
    case StPollLook(_) =>
    case StPollStatus(_) =>
    case StPollStore(_, _) =>
  }

  lemma ActorKeepsWorker(s: State, step: Step, s': State, h: nat)
    requires Next(s, step, s') && ActorOf(step) == Some(h) && h in s'.handlers
    requires h in s.handlers ==> OwnClaim(s.handlers[h])
    ensures OwnClaim(s'.handlers[h]) && KeptOrBegun(s, step, s', h)
  {
    match step
    case ByCreate(x) => CreateHasNoWorker(s, x, s');
    case ByClaim(x) => ClaimKeepsWorker(s, x, s');
    case ByOwner(x) => OwnerKeepsWorker(s, x, s', h);
    case ByPoll(x) => PollKeepsWorker(s, x, s');
    case ByReap(x) => ReapHasNoWorker(s, x, s', h);
  }

  lemma CreateHasNoWorker(s: State, step: CreateStep, s': State)
    requires CreateNext(s, step, s') && step.h in s'.handlers
    ensures WorkerOf(s'.handlers[step.h]) == None && OwnClaim(s'.handlers[step.h])
  {
    match step
    case StInsert(_, _, _, _, _, _, _) =>
    case StReadBack(_, _) =>
    case StStart(_) =>
  }

  lemma OwnerKeepsWorker(s: State, step: OwnerStep, s': State, h: nat)
    requires OwnerNext(s, step, s') && ActorOf(ByOwner(step)) == Some(h) && h in s'.handlers
    ensures OwnClaim(s'.handlers[h]) && KeptOrBegun(s, ByOwner(step), s', h)
  {
    match step
    case StFailRead(_, _, _, _, _) =>
    case StFailWrite(_) =>
    case StRedrive(_, _, _, _) =>
    case _ =>
  }

  lemma ReapHasNoWorker(s: State, step: ReapStep, s': State, h: nat)
    requires ReapNext(s, step, s') && ActorOf(ByReap(step)) == Some(h) && h in s'.handlers
    ensures WorkerOf(s'.handlers[h]) == None && OwnClaim(s'.handlers[h])
  {
    match step
    case StReapSelect(_, _) =>
    case StReapWrite(_) =>
    case StReapSkip(_) =>
    case StTick(_) =>
    case StAbort(_) =>
  }

  lemma StepOneEach(s: State, step: Step, s': State, window: int)
    requires OneEach(s) && Next(s, step, s') && Disciplined(s, step, window)
    ensures OneEach(s')
  {
    StepLocal(s, step, s');
    forall j | j in s'.handlers
      ensures OwnClaim(s'.handlers[j])
      ensures forall k :: k in s.handlers && k != j && WorkerOf(s'.handlers[j]).Some? ==>
                WorkerOf(s.handlers[k]) != WorkerOf(s'.handlers[j])
    {
      if ActorOf(step) == Some(j) {
        ActorKeepsWorker(s, step, s', j);
        MoverIsAlone(s, step, s', window, j);
      }
    }
  }

  /** No bystander works for the worker of the handler that moved. */
  lemma MoverIsAlone(s: State, step: Step, s': State, window: int, h: nat)
    requires OneEach(s) && Disciplined(s, step, window) && h in s'.handlers && KeptOrBegun(s, step, s', h)
    ensures forall k :: k in s.handlers && k != h && WorkerOf(s'.handlers[h]).Some? ==>
              WorkerOf(s.handlers[k]) != WorkerOf(s'.handlers[h])
  {
    if !(h in s.handlers && WorkerOf(s'.handlers[h]) == WorkerOf(s.handlers[h])) && WorkerOf(s'.handlers[h]).Some? {
      assert Idle(s, WorkerOf(s'.handlers[h]).value);
    }
  }

  // ----- Reads stay fresh -----

  lemma ReportStays(db: Db, e: Effect, db': Db, x: Handler)
    requires ReportFresh(db, x) && Follows(db, e, db')
    requires x.Failing? && e.Changed? && e.u.Claim? ==> e.u.worker != x.worker
    ensures ReportFresh(db', x)
  {
  }

  /** A worker with a report outstanding is not the one that claims. */
  lemma OtherWorkerClaims(s: State, step: Step, k: nat)
    requires OneEach(s) && k in s.handlers && s.handlers[k].Failing? && ActorOf(step) != Some(k)
    requires EffectOf(s, step).Changed? && EffectOf(s, step).u.Claim?
    ensures EffectOf(s, step).u.worker != s.handlers[k].worker
  {
    ClaimsCommit(s, step);
    assert WorkerOf(s.handlers[k]) != WorkerOf(s.handlers[step.claim.h]);
  }

  predicate Lasting(e: Effect, deadline: int) {
    e.Changed? && (e.u.Claim? || e.u.Heartbeat?) ==> e.u.until >= deadline
  }

  /** A lease granted or extended after a batch was read outlives the batch. */
  lemma NewLeaseLasts(s: State, step: Step, window: int)
    requires Disciplined(s, step, window) && window <= 30
    ensures Lasting(EffectOf(s, step), s.db.now + window)
  {
    match step
    case ByCreate(_) =>
    case ByFlow(_) =>
    case ByClaim(_) =>
    case ByOwner(_) =>
    case ByPoll(_) =>
    case ByReap(_) =>
  }

  lemma SeenStays(db: Db, e: Effect, db': Db, it: Seen, deadline: int)
    requires RowsSound(db) && Follows(db, e, db') && Lasting(e, deadline) && SeenFresh(db, it, deadline)
    ensures SeenFresh(db', it, deadline)
  {
    match e
    case Nothing =>
    case Added(o, _) => assert o != it.op;
    case Changed(o, u) =>
      if o == it.op {
        SeenSurvives(db.rows[o], db.history[o], u, it, deadline);
        assert db'.rows[o] == Apply(db.rows[o], u);
      }
  }

  lemma SeenSurvives(r: Row, history: seq<Change>, u: Update, it: Seen, deadline: int)
    requires Sound(r, history) && Matches(r, u) && (u.Claim? || u.Heartbeat? ==> u.until >= deadline)
    requires r.status == Running && r.expires.Some? ==> SameLease(r, it) || r.expires.value >= deadline
    ensures
      var r' := Apply(r, u);
      && r'.maxAttempts == r.maxAttempts
      && (r'.status == Running && r'.expires.Some? ==> SameLease(r', it) || r'.expires.value >= deadline)
  {
  }

  lemma BatchStays(db: Db, e: Effect, db': Db, items: seq<Seen>, at: int, window: int)
    requires RowsSound(db) && Follows(db, e, db') && Lasting(e, db.now + window) && db.now <= db'.now
    requires BatchFresh(db, items, at, window)
    ensures BatchFresh(db', items, at, window)
  {
    forall i | 0 <= i < |items|
      ensures SeenFresh(db', items[i], at + window)
    {
      SeenStays(db, e, db', items[i], at + window);
    }
  }

  lemma BatchesStay(db: Db, e: Effect, db': Db, x: Handler, window: int)
    requires RowsSound(db) && Follows(db, e, db') && Lasting(e, db.now + window) && db.now <= db'.now
    requires BatchesFresh(db, x, window)
    ensures BatchesFresh(db', x, window)
  {
    match x
    case Reaping(items, at) => BatchStays(db, e, db', items, at, window);
    case Starting(_, _, _, after) =>
      if after.MoreReaping? {
        BatchStays(db, e, db', after.items, after.at, window);
      }
    case _ =>
  }

  /** What the moving handler holds after its step was already fresh before it. */
  lemma ActorFresh(s: State, step: Step, s': State, window: int, h: nat)
    requires Budgeted(s, window) && Next(s, step, s') && ActorOf(step) == Some(h) && h in s'.handlers
    ensures s'.handlers[h].Failing? ==> ReportFresh(s'.db, s'.handlers[h])
    ensures BatchesFresh(s.db, s'.handlers[h], window)
  {
    match step
    case ByCreate(x) => CreateFresh(s, x, s', window);
    case ByClaim(x) => ClaimFresh(s, x, s');
    case ByOwner(x) => OwnerFresh(s, x, s', h);
    case ByPoll(x) => PollFresh(s, x, s');
    case ByReap(x) => ReapFresh(s, x, s', window, h);
  }

  predicate NoReads(x: Handler) {
    !x.Failing? && !x.Reaping? && (x.Starting? ==> x.after.Reply?)
  }

  lemma CreateFresh(s: State, step: CreateStep, s': State, window: int)
    requires CreateNext(s, step, s')
    requires step.h in s.handlers ==> BatchesFresh(s.db, s.handlers[step.h], window)
    requires step.h in s'.handlers
    ensures !s'.handlers[step.h].Failing? && BatchesFresh(s.db, s'.handlers[step.h], window)
  {
  }

  lemma ClaimFresh(s: State, step: ClaimStep, s': State)
    requires ClaimNext(s, step, s')
    requires step.h in s'.handlers
    ensures NoReads(s'.handlers[step.h])
  {
    match step
    case StClaimBegin(_, _, _, _) =>
    case StLockRow(_) =>
    case StLockTenant(_) =>
    case StCount(_) =>
    case StClaimWrite(_) =>
    case StClaimCommit(_) =>
  }

  lemma PollFresh(s: State, step: PollStep, s': State)
    requires PollNext(s, step, s')
    requires step.h in s'.handlers
    ensures NoReads(s'.handlers[step.h])
  {
    match step
    case StPollBegin(_, _, _) =>
    case StPollFetch(_) =>
    case StPollLook(_) =>
    case StPollStatus(_) =>
    case StPollStore(_, _) =>
  }

  lemma OwnerFresh(s: State, step: OwnerStep, s': State, h: nat)
    requires OwnerNext(s, step, s')
    requires ActorOf(ByOwner(step)) == Some(h) && h in s'.handlers
    ensures s'.handlers[h].Failing? ==> ReportFresh(s'.db, s'.handlers[h])
    ensures s'.handlers[h].Failing? || NoReads(s'.handlers[h])
  {
    match step
    case StHeartbeat(_, _, _) =>
    case StComplete(_, _, _) =>
    case StFailRead(_, _, _, _, _) =>
    case StFailWrite(_) =>
    case StCancel(_, _) =>
    case StRedrive(_, _, _, _) =>
  }

  lemma SelectedFresh(db: Db, items: seq<Seen>, window: int)
    requires ReapBatch(db, items)
    ensures BatchFresh(db, items, db.now, window)
  {
  }

  lemma RestFresh(db: Db, items: seq<Seen>, at: int, window: int)
    requires BatchFresh(db, items, at, window) && items != []
    ensures BatchFresh(db, items[1..], at, window)
  {
  }

  lemma ReapFresh(s: State, step: ReapStep, s': State, window: int, h: nat)
    requires ReapNext(s, step, s')
    requires h in s.handlers ==> BatchesFresh(s.db, s.handlers[h], window)
    requires ActorOf(ByReap(step)) == Some(h) && h in s'.handlers
    ensures !s'.handlers[h].Failing? && BatchesFresh(s.db, s'.handlers[h], window)
  {
    match step
    case StReapSelect(_, items) => SelectedFresh(s.db, items, window);
    case StReapWrite(_) => RestFresh(s.db, s.handlers[h].items, s.handlers[h].at, window);
    case StReapSkip(_) => RestFresh(s.db, s.handlers[h].items, s.handlers[h].at, window);
    case StTick(_) =>
    case StAbort(_) =>
  }

  lemma StepBudgeted(s: State, step: Step, s': State, window: int)
    requires Budgeted(s, window) && Next(s, step, s') && Disciplined(s, step, window) && window <= 30
    ensures Budgeted(s', window)
  {
    StepEffects(s, step, s');
    var e := EffectOf(s, step);
    if e.Changed? {
      WritesAffordable(s, step, window);
    }
    EffectKeepsBounds(s.db, e, s'.db);
    StepOneEach(s, step, s', window);
    StepLocal(s, step, s');
    NewLeaseLasts(s, step, window);
    forall k | k in s'.handlers
      ensures ReportFresh(s'.db, s'.handlers[k]) && BatchesFresh(s'.db, s'.handlers[k], window)
    {
      if ActorOf(step) == Some(k) {
        ActorFresh(s, step, s', window, k);
      } else {
        if e.Changed? && e.u.Claim? && s.handlers[k].Failing? {
          OtherWorkerClaims(s, step, k);
        }
        ReportStays(s.db, e, s'.db, s.handlers[k]);
      }
      BatchesStay(s.db, e, s'.db, s'.handlers[k], window);
    }
  }

  lemma {:induction false} RunBudgeted(trace: seq<State>, steps: seq<Step>, window: int, i: nat)
    requires DisciplinedRun(trace, steps, window) && i <= |steps|
    ensures Budgeted(trace[i], window)
  {
    if i > 0 {
      RunBudgeted(trace, steps, window, i - 1);
      StepBudgeted(trace[i - 1], steps[i - 1], trace[i], window);
    }
  }

  // ----- Exactly when the budget holds -----

  /** The step's UPDATE, if it matches a row, is affordable for the row as it is then. */
  predicate StepAffordable(s: State, step: Step) {
    var e := EffectOf(s, step);
    e.Changed? && Hits(s.db, e.o, e.u) ==> Affordable(s.db.rows[e.o], e.u)
  }

  ghost predicate AllWithinBudget(db: Db) {
    forall o :: o in db.rows ==> WithinBudget(db.rows[o])
  }

  /** A step keeps every row within its budget if and only if its UPDATE is affordable. */
  lemma StepKeepsBudgetExactly(db: Db, e: Effect, db': Db)
    requires RowsSound(db) && AllWithinBudget(db) && Follows(db, e, db')
    ensures AllWithinBudget(db') <==> (e.Changed? ==> Affordable(db.rows[e.o], e.u))
  {
    if e.Changed? {
      BudgetKeptExactly(db.rows[e.o], e.u);
      assert db'.rows[e.o] == Apply(db.rows[e.o], e.u);
    }
  }

  lemma BudgetStepExactly(s: State, step: Step, s': State)
    requires RowsSound(s.db) && AllWithinBudget(s.db) && Next(s, step, s')
    ensures AllWithinBudget(s'.db) <==> StepAffordable(s, step)
  {
    StepEffects(s, step, s');
    StepKeepsBudgetExactly(s.db, EffectOf(s, step), s'.db);
  }

  lemma {:induction false} KeptIfAffordable(trace: seq<State>, steps: seq<Step>, i: nat, n: nat)
    requires Run(trace, steps) && i <= n <= |steps|
    requires forall j :: 0 <= j < n ==> StepAffordable(trace[j], steps[j])
    ensures AllWithinBudget(trace[i].db)
  {
    if i > 0 {
      KeptIfAffordable(trace, steps, i - 1, n);
      RunSound(trace, steps, i - 1);
      BudgetStepExactly(trace[i - 1], steps[i - 1], trace[i]);
    }
  }

  /**
   In any run, disciplined or not: no operation ever overruns its budget if and only if no step writes a
   RETRYING its row cannot afford. Discipline is a way to ensure it (WritesAffordable).
   */
  lemma RunKeepsBudgetExactly(trace: seq<State>, steps: seq<Step>, n: nat)
    requires Run(trace, steps) && n <= |steps|
    ensures (forall i :: 0 <= i <= n ==> AllWithinBudget(trace[i].db))
        <==> (forall i :: 0 <= i < n ==> StepAffordable(trace[i], steps[i]))
  {
    if forall i :: 0 <= i <= n ==> AllWithinBudget(trace[i].db) {
      forall i | 0 <= i < n
        ensures StepAffordable(trace[i], steps[i])
      {
        RunSound(trace, steps, i);
        BudgetStepExactly(trace[i], steps[i], trace[i + 1]);
      }
    }
    if forall i :: 0 <= i < n ==> StepAffordable(trace[i], steps[i]) {
      forall i | 0 <= i <= n
        ensures AllWithinBudget(trace[i].db)
      {
        KeptIfAffordable(trace, steps, i, n);
      }
    }
  }

  // ----- Results -----

  /** In every reachable state the attempts spent are within the budget, and strictly so while more may be spent. */
  lemma AttemptBudget(trace: seq<State>, steps: seq<Step>, window: int, i: nat, o: string)
    requires DisciplinedRun(trace, steps, window) && i <= |steps| && o in trace[i].db.rows
    ensures
      var r := trace[i].db.rows[o];
      && 0 <= r.attempt <= r.maxAttempts
      && (r.status in {Pending, Queued, Retrying} ==> r.attempt < r.maxAttempts)
      && (r.status == Running ==> 1 <= r.attempt)
  {
    RunBudgeted(trace, steps, window, i);
  }

  /** If a failure report's UPDATE hits, the attempt it read is the attempt it closes. */
  lemma StaleReadHarmless(trace: seq<State>, steps: seq<Step>, window: int, i: nat, h: nat)
    requires DisciplinedRun(trace, steps, window) && i <= |steps|
    requires CanFailWrite(trace[i], h) && FailHits(trace[i], trace[i].handlers[h])
    ensures
      var x := trace[i].handlers[h];
      trace[i].db.rows[x.op].attempt == x.attempt && trace[i].db.rows[x.op].maxAttempts == x.maxAttempts
  {
    RunBudgeted(trace, steps, window, i);
    assert ReportFresh(trace[i].db, trace[i].handlers[h]);
  }

  /** If a reaper's UPDATE hits, the row is in the very lease the batch read. */
  lemma ReaperHitsSeenLease(trace: seq<State>, steps: seq<Step>, window: int, i: nat, h: nat)
    requires DisciplinedRun(trace, steps, window) && i < |steps| && steps[i] == ByReap(StReapWrite(h))
    requires EffectOf(trace[i], steps[i]).Changed?
    ensures SameLease(trace[i].db.rows[trace[i].handlers[h].items[0].op], trace[i].handlers[h].items[0])
  {
    RunBudgeted(trace, steps, window, i);
    StepEffects(trace[i], steps[i], trace[i + 1]);
    ReapInTime(trace[i], steps[i], window);
  }

  lemma EffectProgresses(db: Db, e: Effect, db': Db, o: string)
    requires RowsBounded(db) && Follows(db, e, db') && (e.Changed? ==> Affordable(db.rows[e.o], e.u))
    requires o in db.rows && db'.rows[o].status != db.rows[o].status && e != Changed(o, Redrive)
    ensures
      var r, r' := db.rows[o], db'.rows[o];
      && r'.maxAttempts == r.maxAttempts && r'.attempt <= r'.maxAttempts
      && (r'.attempt > r.attempt || (r'.attempt == r.attempt && Rank(r'.status) < Rank(r.status)))
  {
    assert Sound(db.rows[o], db.history[o]);
    MeasureDecreases(db.rows[o], e.u);
  }

  /** Every status change but a redrive decreases (attempts left, rank), in any disciplined run. */
  lemma EveryChangeProgresses(trace: seq<State>, steps: seq<Step>, window: int, i: nat, o: string)
    requires DisciplinedRun(trace, steps, window) && i < |steps|
    requires o in trace[i].db.rows && o in trace[i + 1].db.rows
    requires trace[i].db.rows[o].status != trace[i + 1].db.rows[o].status
    requires EffectOf(trace[i], steps[i]) != Changed(o, Redrive)
    ensures
      var r, r' := trace[i].db.rows[o], trace[i + 1].db.rows[o];
      && r'.maxAttempts == r.maxAttempts && r'.attempt <= r'.maxAttempts
      && (r'.attempt > r.attempt || (r'.attempt == r.attempt && Rank(r'.status) < Rank(r.status)))
  {
    RunBudgeted(trace, steps, window, i);
    StepEffects(trace[i], steps[i], trace[i + 1]);
    if EffectOf(trace[i], steps[i]).Changed? {
      WritesAffordable(trace[i], steps[i], window);
    }
    EffectProgresses(trace[i].db, EffectOf(trace[i], steps[i]), trace[i + 1].db, o);
  }

  /** `version` counts an operation's status changes: at most 3 per attempt, plus 3*max+1 for each redrive. */
  lemma VersionIsBounded(trace: seq<State>, steps: seq<Step>, window: int, i: nat, o: string)
    requires DisciplinedRun(trace, steps, window) && i <= |steps| && o in trace[i].db.rows
    ensures o in trace[i].db.history
    ensures
      var r, redrives := trace[i].db.rows[o], Redrives(trace[i].db.history[o]);
      r.version == |trace[i].db.history[o]| <= 3 * r.maxAttempts + redrives * (3 * r.maxAttempts + 1)
  {
    RunBudgeted(trace, steps, window, i);
    VersionBound(trace[i].db.rows[o], trace[i].db.history[o]);
  }
}
