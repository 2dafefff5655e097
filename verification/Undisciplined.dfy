/**
 Why runs have to be disciplined: two runs of sequential clients in which a report or a reap decides on an
 attempt it read too long ago, and leaves the operation RETRYING with its whole budget spent. In the first
 the worker's client gives up on a report after 45 seconds and polls while the report is still at work; in
 the second a reaper reaches a row long after its SELECT. Nothing else in either is late.
 */
module Undisciplined {
  import opened Domain
  import opened Rows
  import opened Tables
  import opened Protocol
  import opened Budget
  import opened Discipline
  import opened Scenarios
  import opened Alone

  const SEEN := Seen(OP, ENV, 1, 2, WORKER, 45, 2)
  const RECOVERY := RecoveryFlow(OP, 1)

  // ----- Runs made step by step -----

  function Now(trace: seq<State>, steps: seq<Step>): State
    requires |steps| < |trace|
  {
    trace[|steps|]
  }

  function LatestNow(trace: seq<State>, steps: seq<Step>): Option<Latest>
    requires |steps| < |trace|
  {
    LatestOf(trace, steps, |steps|, WORKER)
  }

  lemma {:induction false} LatestOfPrefix(trace: seq<State>, steps: seq<Step>, step: Step, s': State, i: nat, w: string)
    requires i <= |steps| && |trace| == |steps| + 1
    ensures LatestOf(trace + [s'], steps + [step], i, w) == LatestOf(trace, steps, i, w)
  {
    if i > 0 {
      assert (steps + [step])[i - 1] == steps[i - 1] && (trace + [s'])[i - 1] == trace[i - 1];
      LatestOfPrefix(trace, steps, step, s', i - 1, w);
    }
  }

  /** Opening no request, or one its worker's client may open, a step makes a run of sequential clients longer. */
  ghost predicate Allowed(trace: seq<State>, steps: seq<Step>, step: Step)
    requires |steps| < |trace|
  {
    forall w :: Opens(step, w) ==> MayOpen(Now(trace, steps), LatestOf(trace, steps, |steps|, w), w)
  }

  ghost predicate Prompt(trace: seq<State>, steps: seq<Step>, step: Step)
    requires |steps| < |trace|
  {
    forall w :: Opens(step, w) ==> InTime(Now(trace, steps), LatestOf(trace, steps, |steps|, w), w)
  }

  /** The run of sequential clients goes on from one state to the next; what was in time so far still is. */
  ghost predicate GoesOn(trace: seq<State>, steps: seq<Step>, trace': seq<State>, steps': seq<Step>, clients: bool,
                         reapers: bool)
    requires |steps| < |trace|
  {
    && AgentRun(trace', steps')
    && (clients && AllInTime(trace, steps) ==> AllInTime(trace', steps'))
    && (reapers && AllOnTime(trace, steps, 30) ==> AllOnTime(trace', steps', 30))
  }

  lemma LongerRun(trace: seq<State>, steps: seq<Step>, step: Step, s': State)
    requires Run(trace, steps) && Next(Now(trace, steps), step, s')
    ensures Run(trace + [s'], steps + [step])
  {
    var trace', steps' := trace + [s'], steps + [step];
    forall i | 0 <= i < |steps'|
      ensures Next(trace'[i], steps'[i], trace'[i + 1])
    {
      assert i < |steps| ==> steps'[i] == steps[i] && trace'[i] == trace[i] && trace'[i + 1] == trace[i + 1];
    }
  }

  /** A longer run has the same openings, with the same latest requests before them, and perhaps one more. */
  lemma SameOpening(trace: seq<State>, steps: seq<Step>, step: Step, s': State, i: nat, w: string)
    requires |trace| == |steps| + 1 && i <= |steps| && Opens((steps + [step])[i], w)
    ensures LatestOf(trace + [s'], steps + [step], i, w) == LatestOf(trace, steps, i, w)
    ensures (trace + [s'])[i] == trace[i]
    ensures if i < |steps| then Opens(steps[i], w) else Opens(step, w)
  {
    LatestOfPrefix(trace, steps, step, s', i, w);
  }

  lemma LongerAgentRun(trace: seq<State>, steps: seq<Step>, step: Step, s': State)
    requires AgentRun(trace, steps) && Next(Now(trace, steps), step, s') && Allowed(trace, steps, step)
    ensures AgentRun(trace + [s'], steps + [step])
  {
    LongerRun(trace, steps, step, s');
    var trace', steps' := trace + [s'], steps + [step];
    forall i, w | 0 <= i < |steps'| && Opens(steps'[i], w)
      ensures MayOpen(trace'[i], LatestOf(trace', steps', i, w), w)
    {
      SameOpening(trace, steps, step, s', i, w);
    }
  }

  lemma LongerInTime(trace: seq<State>, steps: seq<Step>, step: Step, s': State)
    requires |trace| == |steps| + 1 && AllInTime(trace, steps) && Prompt(trace, steps, step)
    ensures AllInTime(trace + [s'], steps + [step])
  {
    var trace', steps' := trace + [s'], steps + [step];
    forall i, w | 0 <= i < |steps'| && Opens(steps'[i], w)
      ensures InTime(trace'[i], LatestOf(trace', steps', i, w), w)
    {
      SameOpening(trace, steps, step, s', i, w);
    }
  }

  lemma LongerOnTime(trace: seq<State>, steps: seq<Step>, step: Step, s': State)
    requires |trace| == |steps| + 1 && AllOnTime(trace, steps, 30) && OnTime(Now(trace, steps), step, 30)
    ensures AllOnTime(trace + [s'], steps + [step], 30)
  {
    forall i | 0 <= i < |steps + [step]|
      ensures OnTime((trace + [s'])[i], (steps + [step])[i], 30)
    {
      assert i < |steps| ==> OnTime(trace[i], steps[i], 30);
    }
  }

  function LatestAfter(last: Option<Latest>, s: State, step: Step): Option<Latest> {
    if Opens(step, WORKER) then Some(Latest(OpeningOf(step).value.h, s.db.now + OpeningOf(step).value.patience))
    else last
  }

  lemma LongerLatest(trace: seq<State>, steps: seq<Step>, step: Step, s': State)
    requires |trace| == |steps| + 1
    ensures LatestNow(trace + [s'], steps + [step]) == LatestAfter(LatestNow(trace, steps), Now(trace, steps), step)
    ensures Now(trace + [s'], steps + [step]) == s'
  {
    LatestOfPrefix(trace, steps, step, s', |steps|, WORKER);
    assert (steps + [step])[|steps|] == step && (trace + [s'])[|steps|] == trace[|steps|];
  }

  lemma Extend(trace: seq<State>, steps: seq<Step>, step: Step, s': State)
    returns (trace': seq<State>, steps': seq<Step>)
    requires AgentRun(trace, steps) && Next(Now(trace, steps), step, s') && Allowed(trace, steps, step)
    ensures GoesOn(trace, steps, trace', steps', Prompt(trace, steps, step), OnTime(Now(trace, steps), step, 30))
    ensures Now(trace', steps') == s'
    ensures LatestNow(trace', steps') == LatestAfter(LatestNow(trace, steps), Now(trace, steps), step)
  {
    LongerAgentRun(trace, steps, step, s');
    LongerLatest(trace, steps, step, s');
    trace', steps' := trace + [s'], steps + [step];
    if Prompt(trace, steps, step) && AllInTime(trace, steps) {
      LongerInTime(trace, steps, step, s');
    }
    if OnTime(Now(trace, steps), step, 30) && AllOnTime(trace, steps, 30) {
      LongerOnTime(trace, steps, step, s');
    }
  }

  // ----- The operation's second attempt, around a handler that sits still -----

  predicate OneRow(db: Db, r: Row, now: int) {
    db.rows == map[OP := r] && OP in db.history && db.limits == map[TENANT := 1] && db.now == now
  }

  /** Handler 0 sits still; handler 1 is a reaper; nobody holds a lock. */
  predicate Around(s: State, stale: Handler, reaper: Handler) {
    s == State(s.db, map[0 := stale, 1 := reaper], map[], map[], s.replies)
  }

  predicate AllRead(db: Db) {
    CursorOf(db, TENANT) == |db.stream|
  }

  /** One message is unread, and it is the operation's. */
  predicate OneUnread(db: Db) {
    CursorOf(db, TENANT) + 1 == |db.stream| && db.stream[|db.stream| - 1] == Job(ENV)
  }

  /** First attempt running, nothing in progress, the poll that claimed it answered. */
  lemma FirstAttempt() returns (trace: seq<State>, steps: seq<Step>)
    ensures AgentRun(trace, steps) && AllInTime(trace, steps) && AllOnTime(trace, steps, 30)
    ensures
      var s := Now(trace, steps);
      && s == State(s.db, map[], map[], map[], s.replies)
      && OneRow(s.db, RunningRow(2, 1, 45, 2), 0) && AllRead(s.db) && RECOVERY !in s.db.flows
  {
    var from, s := FirstClaim();
    trace, steps := RunTo(from, s);
    DisciplinedExactly(trace, steps, 30);
  }

  lemma FirstClaim() returns (from: State, s: State)
    ensures IsInit(from) && Reaches(from, s, 30)
    ensures
      && s == State(s.db, map[], map[], map[], s.replies)
      && OneRow(s.db, RunningRow(2, 1, 45, 2), 0) && AllRead(s.db) && RECOVERY !in s.db.flows
  {
    var s0;
    from, s0 := Starts(2);
    var f0 := map[OperationFlow(OP) := Flow(ENV, 0, Waiting(false))];
    s := IsClaimed(from, s0, 2, Pending, 0, 0, 0, f0, {}, OperationFlow(OP));
  }

  lemma SeenIsBatch(db: Db)
    requires OneRow(db, RunningRow(2, 1, 45, 2), 46)
    ensures ReapBatch(db, [SEEN])
  {
    assert Expired(db, [SEEN][0].op);
    forall o | Expired(db, o)
      ensures exists i :: 0 <= i < |[SEEN]| && [SEEN][i].op == o
    {
      assert [SEEN][0].op == o;
    }
  }

  /** Its lease ran out and a reaper closes it. */
  lemma IsReaped(trace: seq<State>, steps: seq<Step>, stale: Handler) returns (trace': seq<State>, steps': seq<Step>)
    requires AgentRun(trace, steps)
    requires
      var s := Now(trace, steps);
      && s == State(s.db, map[0 := stale], map[], map[], s.replies)
      && OneRow(s.db, RunningRow(2, 1, 45, 2), 46) && AllRead(s.db) && RECOVERY !in s.db.flows
    ensures GoesOn(trace, steps, trace', steps', true, true) && LatestNow(trace', steps') == LatestNow(trace, steps)
    ensures
      var s := Now(trace', steps');
      && Around(s, stale, Reaping([], 46)) && OneRow(s.db, RestingRow(2, Retrying, 1, 3), 46) && AllRead(s.db)
      && RECOVERY in s.db.flows && s.db.flows[RECOVERY] == Flow(ENV, 48, Waiting(false))
  {
    var s := Now(trace, steps);
    SeenIsBatch(s.db);
    var s1 := State(s.db, map[0 := stale, 1 := Reaping([SEEN], 46)], map[], map[], s.replies);
    assert DoReapSelect(s, 1, [SEEN]).handlers == s1.handlers;
    var t1, x1 := Extend(trace, steps, ByReap(StReapSelect(1, [SEEN])), s1);
    var s2 := Reaped(s1, stale);
    var t2, x2 := Extend(t1, x1, ByReap(StReapWrite(1)), s2);
    trace', steps' := IsStarted(t2, x2, stale);
  }

  /** The reaper's UPDATE hits, and its handler goes on to start the recovery workflow. */
  lemma Reaped(s: State, stale: Handler) returns (s': State)
    requires s == State(s.db, map[0 := stale, 1 := Reaping([SEEN], 46)], map[], map[], s.replies)
    requires OneRow(s.db, RunningRow(2, 1, 45, 2), 46)
    ensures CanReapWrite(s, 1) && s' == DoReapWrite(s, 1)
    ensures Around(s', stale, Starting(RECOVERY, ENV, 48, MoreReaping([], 46)))
    ensures OneRow(s'.db, RestingRow(2, Retrying, 1, 3), 46)
    ensures s'.db.flows == s.db.flows && s'.db.stream == s.db.stream && s'.db.cursors == s.db.cursors
  {
    s' := DoReapWrite(s, 1);
    assert [SEEN][1..] == [];
  }

  lemma IsStarted(trace: seq<State>, steps: seq<Step>, stale: Handler) returns (trace': seq<State>, steps': seq<Step>)
    requires AgentRun(trace, steps)
    requires
      var s := Now(trace, steps);
      && Around(s, stale, Starting(RECOVERY, ENV, 48, MoreReaping([], 46)))
      && OneRow(s.db, RestingRow(2, Retrying, 1, 3), 46) && AllRead(s.db) && RECOVERY !in s.db.flows
    ensures GoesOn(trace, steps, trace', steps', true, true) && LatestNow(trace', steps') == LatestNow(trace, steps)
    ensures
      var s := Now(trace', steps');
      && Around(s, stale, Reaping([], 46)) && OneRow(s.db, RestingRow(2, Retrying, 1, 3), 46) && AllRead(s.db)
      && RECOVERY in s.db.flows && s.db.flows[RECOVERY] == Flow(ENV, 48, Waiting(false))
  {
    trace', steps' := Extend(trace, steps, ByCreate(StStart(1)), DoStart(Now(trace, steps), 1));
  }

  /** Two seconds later its recovery workflow queues and publishes it. */
  lemma IsPublished(trace: seq<State>, steps: seq<Step>, stale: Handler) returns (trace': seq<State>, steps': seq<Step>)
    requires AgentRun(trace, steps)
    requires
      var s := Now(trace, steps);
      && Around(s, stale, Reaping([], 46)) && OneRow(s.db, RestingRow(2, Retrying, 1, 3), 46) && AllRead(s.db)
      && RECOVERY in s.db.flows && s.db.flows[RECOVERY] == Flow(ENV, 48, Waiting(false))
    ensures GoesOn(trace, steps, trace', steps', true, true) && LatestNow(trace', steps') == LatestNow(trace, steps)
    ensures
      var s := Now(trace', steps');
      Around(s, stale, Reaping([], 46)) && OneRow(s.db, RestingRow(2, Queued, 1, 4), 48) && OneUnread(s.db)
  {
    var t1, x1 := Extend(trace, steps, ByReap(StTick(2)), DoTick(Now(trace, steps), 2));
    var t2, x2 := IsUpdated(t1, x1, stale);
    trace', steps' := IsLogged(t2, x2, stale);
  }

  lemma IsUpdated(trace: seq<State>, steps: seq<Step>, stale: Handler) returns (trace': seq<State>, steps': seq<Step>)
    requires AgentRun(trace, steps)
    requires
      var s := Now(trace, steps);
      && Around(s, stale, Reaping([], 46)) && OneRow(s.db, RestingRow(2, Retrying, 1, 3), 48) && AllRead(s.db)
      && RECOVERY in s.db.flows && s.db.flows[RECOVERY] == Flow(ENV, 48, Waiting(false))
    ensures GoesOn(trace, steps, trace', steps', true, true) && LatestNow(trace', steps') == LatestNow(trace, steps)
    ensures
      var s := Now(trace', steps');
      && Around(s, stale, Reaping([], 46)) && OneRow(s.db, RestingRow(2, Queued, 1, 4), 48) && AllRead(s.db)
      && RECOVERY in s.db.flows && s.db.flows[RECOVERY] == Flow(ENV, 48, Logging)
  {
    trace', steps' := Extend(trace, steps, ByFlow(StFlowUpdate(RECOVERY)), DoFlowUpdate(Now(trace, steps), RECOVERY));
  }

  lemma IsLogged(trace: seq<State>, steps: seq<Step>, stale: Handler) returns (trace': seq<State>, steps': seq<Step>)
    requires AgentRun(trace, steps)
    requires
      var s := Now(trace, steps);
      && Around(s, stale, Reaping([], 46)) && OneRow(s.db, RestingRow(2, Queued, 1, 4), 48) && AllRead(s.db)
      && RECOVERY in s.db.flows && s.db.flows[RECOVERY] == Flow(ENV, 48, Logging)
    ensures GoesOn(trace, steps, trace', steps', true, true) && LatestNow(trace', steps') == LatestNow(trace, steps)
    ensures
      var s := Now(trace', steps');
      Around(s, stale, Reaping([], 46)) && OneRow(s.db, RestingRow(2, Queued, 1, 4), 48) && OneUnread(s.db)
  {
    var t1, x1 := Extend(trace, steps, ByFlow(StFlowLog(RECOVERY)), DoFlowLog(Now(trace, steps), RECOVERY));
    trace', steps' := Extend(t1, x1, ByFlow(StFlowPublish(RECOVERY)), DoFlowPublish(Now(t1, x1), RECOVERY));
  }

  function Place(db: Db): PollPlace
    requires |db.stream| > 0
  {
    PollPlace(TENANT, WORKER, |db.stream| - 1, |db.stream|)
  }

  function Tx(db: Db): ClaimTx
    requires |db.stream| > 0
  {
    ClaimTx(OP, Some(TENANT), WORKER, 45, 48, Some(Place(db)))
  }

  /** The worker's client polls, and its poll comes to the message. */
  lemma IsFound(trace: seq<State>, steps: seq<Step>, stale: Handler) returns (trace': seq<State>, steps': seq<Step>)
    requires AgentRun(trace, steps) && MayOpen(Now(trace, steps), LatestNow(trace, steps), WORKER)
    requires
      var s := Now(trace, steps);
      Around(s, stale, Reaping([], 46)) && OneRow(s.db, RestingRow(2, Queued, 1, 4), 48) && OneUnread(s.db)
    ensures GoesOn(trace, steps, trace', steps', InTime(Now(trace, steps), LatestNow(trace, steps), WORKER), true)
    ensures
      var s := Now(trace, steps);
      Now(trace', steps') == s.(handlers := s.handlers[2 := Claiming(Tx(s.db), WantRow)])
  {
    var s := Now(trace, steps);
    var s1 := s.(handlers := s.handlers[2 := PollRead(TENANT, WORKER, CursorOf(s.db, TENANT))]);
    var t1, x1 := Extend(trace, steps, ByPoll(StPollBegin(2, TENANT, WORKER)), s1);
    Found(s);
    var t2, x2 := Extend(t1, x1, ByPoll(StPollFetch(2)), s.(handlers := s.handlers[2 := PollAt(Place(s.db))]));
    var s3 := s.(handlers := s.handlers[2 := Claiming(Tx(s.db), WantRow)]);
    trace', steps' := Extend(t2, x2, ByPoll(StPollLook(2)), s3);
  }

  lemma Found(s: State)
    requires OneUnread(s.db) && s.db.now == 48
    ensures
      var s1 := s.(handlers := s.handlers[2 := PollRead(TENANT, WORKER, CursorOf(s.db, TENANT))]);
      PollNext(s1, StPollFetch(2), s.(handlers := s.handlers[2 := PollAt(Place(s.db))]))
    ensures
      var s2 := s.(handlers := s.handlers[2 := PollAt(Place(s.db))]);
      PollNext(s2, StPollLook(2), s.(handlers := s.handlers[2 := Claiming(Tx(s.db), WantRow)]))
  {
    var s1 := s.(handlers := s.handlers[2 := PollRead(TENANT, WORKER, CursorOf(s.db, TENANT))]);
    var s2 := s.(handlers := s.handlers[2 := PollAt(Place(s.db))]);
    assert s1.handlers[2 := PollAt(Place(s.db))] == s2.handlers;
    assert s2.handlers[2 := Claiming(Tx(s.db), WantRow)] == s.handlers[2 := Claiming(Tx(s.db), WantRow)];
  }

  /** The claim transaction holds its locks. */
  function Locked(s: State, phase: ClaimPhase): State
    requires |s.db.stream| > 0
  {
    s.(handlers := s.handlers[2 := Claiming(Tx(s.db), phase)], rowLocks := map[OP := 2],
        tenantLocks := map[TENANT := 2])
  }

  predicate Claimable2(s: State, stale: Handler) {
    Around(s, stale, Reaping([], 46)) && OneRow(s.db, RestingRow(2, Queued, 1, 4), 48) && OneUnread(s.db)
  }

  lemma IsLocked(trace: seq<State>, steps: seq<Step>, s: State, stale: Handler)
    returns (trace': seq<State>, steps': seq<Step>)
    requires AgentRun(trace, steps) && Claimable2(s, stale)
    requires Now(trace, steps) == s.(handlers := s.handlers[2 := Claiming(Tx(s.db), WantRow)])
    ensures GoesOn(trace, steps, trace', steps', true, true)
    ensures Now(trace', steps') == Locked(s, HasTenant(TENANT, 1))
  {
    TakesLocks(s, stale);
    var t1, x1 := Extend(trace, steps, ByClaim(StLockRow(2)), RowLocked(s));
    trace', steps' := Extend(t1, x1, ByClaim(StLockTenant(2)), Locked(s, HasTenant(TENANT, 1)));
  }

  function RowLocked(s: State): State
    requires |s.db.stream| > 0
  {
    s.(handlers := s.handlers[2 := Claiming(Tx(s.db), HasRow(TENANT))], rowLocks := map[OP := 2])
  }

  lemma TakesLocks(s: State, stale: Handler)
    requires Claimable2(s, stale)
    ensures ClaimNext(s.(handlers := s.handlers[2 := Claiming(Tx(s.db), WantRow)]), StLockRow(2), RowLocked(s))
    ensures ClaimNext(RowLocked(s), StLockTenant(2), Locked(s, HasTenant(TENANT, 1)))
  {
    var s0 := s.(handlers := s.handlers[2 := Claiming(Tx(s.db), WantRow)]);
    assert DoLockRow(s0, 2).handlers == RowLocked(s).handlers;
    assert DoLockTenant(RowLocked(s), 2).handlers == Locked(s, HasTenant(TENANT, 1)).handlers;
  }

  lemma CountsNone(s: State, stale: Handler)
    requires Claimable2(s, stale)
    ensures ClaimNext(Locked(s, HasTenant(TENANT, 1)), StCount(2), Locked(s, Counted(TENANT, 1, 0)))
    ensures ClaimNext(Locked(s, Counted(TENANT, 1, 0)), StClaimWrite(2), Locked(s, Written(TENANT)))
  {
    assert RunningSet(s.db.rows, TENANT) == {};
  }

  lemma CommitLeaves(s: State, stale: Handler)
    requires Claimable2(s, stale)
    ensures CanClaimCommit(Locked(s, Written(TENANT)), 2)
    ensures
      var s' := DoClaimCommit(Locked(s, Written(TENANT)), 2);
      && 0 in s'.handlers && s'.handlers[0] == stale && s'.rowLocks == map[]
      && OneRow(s'.db, RunningRow(2, 2, 93, 5), 48)
  {
    var l := Locked(s, Written(TENANT));
    assert Unlock(l.(db := DoClaimCommit(l, 2).db), 2).rowLocks == map[];
  }

  lemma IsCommitted(trace: seq<State>, steps: seq<Step>, s: State, stale: Handler)
    returns (trace': seq<State>, steps': seq<Step>)
    requires AgentRun(trace, steps) && Claimable2(s, stale) && Now(trace, steps) == Locked(s, HasTenant(TENANT, 1))
    ensures GoesOn(trace, steps, trace', steps', true, true)
    ensures
      var s' := Now(trace', steps');
      0 in s'.handlers && s'.handlers[0] == stale && s'.rowLocks == map[] && OneRow(s'.db, RunningRow(2, 2, 93, 5), 48)
  {
    CountsNone(s, stale);
    var t1, x1 := Extend(trace, steps, ByClaim(StCount(2)), Locked(s, Counted(TENANT, 1, 0)));
    var t2, x2 := Extend(t1, x1, ByClaim(StClaimWrite(2)), Locked(s, Written(TENANT)));
    CommitLeaves(s, stale);
    trace', steps' := Extend(t2, x2, ByClaim(StClaimCommit(2)), DoClaimCommit(Locked(s, Written(TENANT)), 2));
  }

  /** The stale decision sits out a lease recovery and a second claim. */
  lemma SitsOut(trace: seq<State>, steps: seq<Step>, stale: Handler) returns (trace': seq<State>, steps': seq<Step>)
    requires AgentRun(trace, steps)
    requires
      var s := Now(trace, steps);
      && s == State(s.db, map[0 := stale], map[], map[], s.replies)
      && OneRow(s.db, RunningRow(2, 1, 45, 2), 46) && AllRead(s.db) && RECOVERY !in s.db.flows
    requires WorkerOf(stale) == None || (LatestNow(trace, steps).Some? && LatestNow(trace, steps).value.until <= 48)
    ensures GoesOn(trace, steps, trace', steps', WorkerOf(stale) == None, true)
    ensures
      var s := Now(trace', steps');
      0 in s.handlers && s.handlers[0] == stale && s.rowLocks == map[] && OneRow(s.db, RunningRow(2, 2, 93, 5), 48)
  {
    var t1, x1 := IsReaped(trace, steps, stale);
    var t2, x2 := IsPublished(t1, x1, stale);
    trace', steps' := IsPolled(t2, x2, stale);
  }

  lemma IsPolled(trace: seq<State>, steps: seq<Step>, stale: Handler) returns (trace': seq<State>, steps': seq<Step>)
    requires AgentRun(trace, steps) && Claimable2(Now(trace, steps), stale)
    requires WorkerOf(stale) == None || (LatestNow(trace, steps).Some? && LatestNow(trace, steps).value.until <= 48)
    ensures GoesOn(trace, steps, trace', steps', WorkerOf(stale) == None, true)
    ensures
      var s := Now(trace', steps');
      0 in s.handlers && s.handlers[0] == stale && s.rowLocks == map[] && OneRow(s.db, RunningRow(2, 2, 93, 5), 48)
  {
    var s := Now(trace, steps);
    var t1, x1 := IsFound(trace, steps, stale);
    var t2, x2 := IsLocked(t1, x1, s, stale);
    trace', steps' := IsCommitted(t2, x2, s, stale);
  }

  // ----- Results -----

  ghost predicate BudgetOverrun(s: State) {
    OP in s.db.rows && s.db.rows[OP].status == Retrying && s.db.rows[OP].attempt == s.db.rows[OP].maxAttempts
  }

  lemma ReportHits(s: State, stale: Handler)
    requires stale == Failing(OP, Some(TENANT), WORKER, true, ENV, 1, 2)
    requires 0 in s.handlers && s.handlers[0] == stale && s.rowLocks == map[]
    requires OneRow(s.db, RunningRow(2, 2, 93, 5), 48)
    ensures CanFailWrite(s, 0) && BudgetOverrun(DoFailWrite(s, 0))
  {
  }

  /**
   A report that read attempt 1 closes attempt 2 of 2: its client waited 45 seconds for it, gave up and polled.
   Claims and reapers are all on time.
   */
  lemma OutstandingReportOverspends() returns (trace: seq<State>, steps: seq<Step>)
    ensures AgentRun(trace, steps) && AllOnTime(trace, steps, 30) && BudgetOverrun(Now(trace, steps))
  {
    var t0, x0 := FirstAttempt();
    var stale := Failing(OP, Some(TENANT), WORKER, true, ENV, 1, 2);
    var t1, x1 := Extend(t0, x0, ByOwner(StFailRead(0, OP, Some(TENANT), WORKER, true)),
                         DoFailRead(Now(t0, x0), 0, OP, Some(TENANT), WORKER, true));
    var t2, x2 := Extend(t1, x1, ByReap(StTick(46)), DoTick(Now(t1, x1), 46));
    var t3, x3 := SitsOut(t2, x2, stale);
    ReportHits(Now(t3, x3), stale);
    trace, steps := Extend(t3, x3, ByOwner(StFailWrite(0)), DoFailWrite(Now(t3, x3), 0));
  }

  lemma ReapHits(s: State)
    requires 0 in s.handlers && s.handlers[0] == Reaping([SEEN], 46) && s.rowLocks == map[]
    requires OneRow(s.db, RunningRow(2, 2, 93, 5), 138)
    ensures CanReapWrite(s, 0) && BudgetOverrun(DoReapWrite(s, 0))
  {
  }

  /**
   A reaper that read attempt 1 takes the lease of attempt 2 of 2, once that has expired too. Every handler
   of a worker is in time.
   */
  lemma LateReaperOverspends() returns (trace: seq<State>, steps: seq<Step>)
    ensures AgentRun(trace, steps) && AllInTime(trace, steps) && BudgetOverrun(Now(trace, steps))
  {
    var t0, x0 := FirstAttempt();
    var t1, x1 := Extend(t0, x0, ByReap(StTick(46)), DoTick(Now(t0, x0), 46));
    SeenIsBatch(Now(t1, x1).db);
    var s := Now(t1, x1);
    var s2 := State(s.db, map[0 := Reaping([SEEN], 46)], map[], map[], s.replies);
    var t2, x2 := Extend(t1, x1, ByReap(StReapSelect(0, [SEEN])), s2);
    var t3, x3 := SitsOut(t2, x2, Reaping([SEEN], 46));
    trace, steps := ReapsLate(t3, x3);
  }

  lemma ReapsLate(trace: seq<State>, steps: seq<Step>) returns (trace': seq<State>, steps': seq<Step>)
    requires AgentRun(trace, steps) && AllInTime(trace, steps)
    requires
      var s := Now(trace, steps);
      && 0 in s.handlers && s.handlers[0] == Reaping([SEEN], 46) && s.rowLocks == map[]
      && OneRow(s.db, RunningRow(2, 2, 93, 5), 48)
    ensures AgentRun(trace', steps') && AllInTime(trace', steps') && BudgetOverrun(Now(trace', steps'))
  {
    var t1, x1 := Extend(trace, steps, ByReap(StTick(90)), DoTick(Now(trace, steps), 90));
    ReapHits(Now(t1, x1));
    trace', steps' := Extend(t1, x1, ByReap(StReapWrite(0)), DoReapWrite(Now(t1, x1), 0));
  }
}
