/** A concrete disciplined run in which a redrive strands its operation. */
module Scenarios {
  import opened Domain
  import opened Rows
  import opened Tables
  import opened Protocol
  import opened Budget
  import opened Handlers
  import opened Alone
  import opened Redriving

  const OP := "a"
  const TENANT := "t"
  const WORKER := "w"
  const ENV := Envelope(OP, TENANT, Private)

  /** One operation, `n` messages for it, `n - pending` of them passed, no request in progress. */
  ghost predicate At(s: State, r: Row, n: nat, pending: nat, flows: map<FlowId, Flow>, events: set<EventKey>) {
    s == Quiet(s.db, s.replies) && Stands(s.db, r, n, pending, flows, events)
  }

  ghost predicate Stands(db: Db, r: Row, n: nat, pending: nat, flows: map<FlowId, Flow>, events: set<EventKey>) {
    && db.limits == map[TENANT := 1]
    && db.rows == map[OP := r] && r.tenant == TENANT && r.mode == Private
    && db.history.Keys == {OP}
    && |db.stream| == n < 50 && (forall i :: 0 <= i < n ==> db.stream[i] == Job(ENV))
    && CursorOf(db, TENANT) + pending == n
    && db.flows == flows && (forall f :: f in flows ==> flows[f].env == ENV)
    && db.events.Keys == events
  }

  function Closed(f: Flow): Flow {
    f.(phase := Done)
  }

  /** Rows of the operation: after its k-th close, in its attempt-th claim. */
  function RunningRow(maxAttempts: int, attempt: int, until: int, version: int): Row {
    Row(TENANT, Private, "k", Running, attempt, maxAttempts, Some(WORKER), Some(until), version)
  }

  function RestingRow(maxAttempts: int, status: Status, attempt: int, version: int): Row {
    Row(TENANT, Private, "k", status, attempt, maxAttempts, None, None, version)
  }

  lemma Starts(maxAttempts: int) returns (from: State, s: State)
    requires 1 <= maxAttempts <= 10
    ensures IsInit(from) && Reaches(from, s, 30) && s.db.now == 0
    ensures
      At(s, RestingRow(maxAttempts, Pending, 0, 0), 0, 0, map[OperationFlow(OP) := Flow(ENV, 0, Waiting(false))], {})
  {
    from := Quiet(Db(0, map[TENANT := 1], map[], map[], [], map[], map[], map[]), {});
    NewKeyAlone(from, OP, TENANT, "k", Private, maxAttempts, 0, 30);
    var db := Insert(from.db, OP, NewRow(TENANT, Private, "k", maxAttempts));
    s := Quiet(RunWorkflow(db, OperationFlow(OP), ENV, 0), {(TENANT, "k", OP)});
    assert from.replies + {(TENANT, "k", OP)} == s.replies;
  }

  function Ran(db: Db, f: FlowId): Db
    requires f in RunStepDb(db, ENV, Finishes).flows
  {
    SetPhase(RunStepDb(db, ENV, Finishes), f, Done)
  }

  lemma PublishedDb(db: Db, r: Row, n: nat, flows: map<FlowId, Flow>, events: set<EventKey>, f: FlowId)
    requires Stands(db, r, n, 0, flows, events) && Matches(r, Enqueue) && n < 40 && f in flows
    ensures f in RunStepDb(db, ENV, Finishes).flows
    ensures Stands(Ran(db, f), Apply(r, Enqueue), n + 1, 1, flows[f := Closed(flows[f])], events)
  {
    var db1 := Write(db, OP, Enqueue);
    assert UpdateDb(db, OP) == db1 && db1.rows == map[OP := Apply(r, Enqueue)];
    assert PublishDb(db1, ENV) == db1.(stream := db.stream + [Job(ENV)]);
  }

  lemma Publishes(from: State, s: State, r: Row, n: nat, flows: map<FlowId, Flow>, events: set<EventKey>, f: FlowId)
    returns (s': State)
    requires Reaches(from, s, 30) && At(s, r, n, 0, flows, events) && Matches(r, Enqueue) && n < 40
    requires f in flows && flows[f].phase.Waiting? && flows[f].notBefore <= s.db.now
    ensures At(s', Apply(r, Enqueue), n + 1, 1, flows[f := Closed(flows[f])], events)
    ensures Reaches(from, s', 30) && s'.db.now == s.db.now
  {
    PublishedDb(s.db, r, n, flows, events, f);
    FlowAlone(s, f, 30);
    s' := s.(db := Ran(s.db, f));
    Joined(from, s, s', 30);
  }

  /** The one unread message is claimed and passed. */
  lemma PollClaims(db: Db, r: Row, n: nat)
    requires db.rows == map[OP := r] && db.history.Keys == {OP} && db.limits == map[TENANT := 1]
    requires r.tenant == TENANT && r.status == Queued
    requires 0 < n == |db.stream| && db.stream[n - 1] == Job(ENV) && CursorOf(db, TENANT) == n - 1
    ensures PollDb(db, TENANT, WORKER).0
        == Write(db, OP, Claim(WORKER, db.now + 45)).(cursors := db.cursors[TENANT := n])
  {
    assert RunningSet(db.rows, TENANT) == {};
    assert Wanted(db, TENANT, n - 1);
    assert FirstWanted(db, TENANT, n - 1, n) == n - 1;
  }

  lemma PolledDb(db: Db, r: Row, n: nat, flows: map<FlowId, Flow>, events: set<EventKey>)
    requires Stands(db, r, n, 1, flows, events) && r.status == Queued
    ensures WellFormed(db)
    ensures
      var db' := PollDb(db, TENANT, WORKER).0;
      Stands(db', Apply(r, Claim(WORKER, db.now + 45)), n, 0, flows, events) && db'.now == db.now
  {
    PollClaims(db, r, n);
    var u := Claim(WORKER, db.now + 45);
    assert Write(db, OP, u).rows == map[OP := Apply(r, u)];
  }

  lemma Polls(from: State, s: State, r: Row, n: nat, flows: map<FlowId, Flow>, events: set<EventKey>)
    returns (s': State)
    requires Reaches(from, s, 30) && At(s, r, n, 1, flows, events) && r.status == Queued
    ensures At(s', Apply(r, Claim(WORKER, s.db.now + 45)), n, 0, flows, events)
    ensures Reaches(from, s', 30) && s'.db.now == s.db.now
  {
    PolledDb(s.db, r, n, flows, events);
    PollAlone(s, TENANT, WORKER, 30);
    s' := s.(db := PollDb(s.db, TENANT, WORKER).0);
    Joined(from, s, s', 30);
  }

  /** A due workflow publishes the operation and a poll claims it. */
  lemma IsClaimed(from: State, s: State, max: int, status: Status, attempt: int, v: int,
                  n: nat, flows: map<FlowId, Flow>, events: set<EventKey>, f: FlowId) returns (s': State)
    requires status in {Pending, Retrying} && n < 40
    requires Reaches(from, s, 30) && At(s, RestingRow(max, status, attempt, v), n, 0, flows, events)
    requires f in flows && flows[f] == Flow(ENV, flows[f].notBefore, Waiting(false)) && flows[f].notBefore <= s.db.now
    ensures At(s', RunningRow(max, attempt + 1, s.db.now + 45, v + 2), n + 1, 0, flows[f := Closed(flows[f])], events)
    ensures Reaches(from, s', 30) && s'.db.now == s.db.now
  {
    QueuedThenClaimed(max, status, attempt, v, s.db.now + 45);
    var s1 := Publishes(from, s, RestingRow(max, status, attempt, v), n, flows, events, f);
    s' := Polls(from, s1, RestingRow(max, Queued, attempt, v + 1), n + 1, flows[f := Closed(flows[f])], events);
  }

  lemma QueuedThenClaimed(max: int, status: Status, attempt: int, v: int, until: int)
    requires status in {Pending, Retrying}
    ensures Apply(RestingRow(max, status, attempt, v), Enqueue) == RestingRow(max, Queued, attempt, v + 1)
    ensures Apply(RestingRow(max, Queued, attempt, v + 1), Claim(WORKER, until))
        == RunningRow(max, attempt + 1, until, v + 2)
  {
  }

  function FlowsAfterReport(flows: map<FlowId, Flow>, max: int, attempt: int, now: int): map<FlowId, Flow> {
    if attempt < max && RetryFlow(OP, attempt) !in flows then
      flows[RetryFlow(OP, attempt) := Flow(ENV, now + Delay(attempt), Waiting(false))]
    else flows
  }

  lemma ReportRow(s: State, max: int, attempt: int, until: int, v: int, n: nat, flows: map<FlowId, Flow>,
                  events: set<EventKey>)
    requires At(s, RunningRow(max, attempt, until, v), n, 0, flows, events)
    ensures
      var to, db := FailTarget(true, attempt, max), FailDb(s.db, OP, Some(TENANT), WORKER, true);
      && db.rows == map[OP := RestingRow(max, to, attempt, v + 1)] && db.history.Keys == {OP}
      && db.stream == s.db.stream && db.cursors == s.db.cursors && db.limits == s.db.limits && db.now == s.db.now
  {
    var u := Fail(WORKER, FailTarget(true, attempt, max));
    assert Write(s.db, OP, u).rows == map[OP := RestingRow(max, u.to, attempt, v + 1)];
  }

  lemma ReportTrail(s: State, max: int, attempt: int, until: int, v: int, n: nat, flows: map<FlowId, Flow>,
                    events: set<EventKey>)
    requires At(s, RunningRow(max, attempt, until, v), n, 0, flows, events)
    ensures
      var to, db := FailTarget(true, attempt, max), FailDb(s.db, OP, Some(TENANT), WORKER, true);
      && db.flows == FlowsAfterReport(flows, max, attempt, s.db.now)
      && db.events.Keys == events + {EventKey(OP, FailKind(to), attempt)}
  {
    FailTrail(s.db, OP, Some(TENANT), WORKER, true);
  }

  /** Its worker reports a retryable failure. */
  lemma Reports(from: State, s: State, max: int, attempt: int, until: int, v: int,
                n: nat, flows: map<FlowId, Flow>, events: set<EventKey>) returns (s': State)
    requires Reaches(from, s, 30) && At(s, RunningRow(max, attempt, until, v), n, 0, flows, events)
    ensures
      var to := FailTarget(true, attempt, max);
      At(s', RestingRow(max, to, attempt, v + 1), n, 0, FlowsAfterReport(flows, max, attempt, s.db.now),
         events + {EventKey(OP, FailKind(to), attempt)})
    ensures Reaches(from, s', 30) && s'.db.now == s.db.now
  {
    FailAlone(s, OP, Some(TENANT), WORKER, true, 30);
    ReportRow(s, max, attempt, until, v, n, flows, events);
    ReportTrail(s, max, attempt, until, v, n, flows, events);
    s' := s.(db := FailDb(s.db, OP, Some(TENANT), WORKER, true));
    Joined(from, s, s', 30);
  }

  lemma IsRedriven(from: State, s: State, max: int, attempt: int, v: int,
                   n: nat, flows: map<FlowId, Flow>, events: set<EventKey>) returns (s': State)
    requires Reaches(from, s, 30) && At(s, RestingRow(max, DeadLettered, attempt, v), n, 0, flows, events)
    requires RedriveFlow(OP, "1") !in flows
    ensures
      var flow := Flow(ENV, s.db.now, Waiting(false));
      At(s', RestingRow(max, Retrying, 0, v + 1), n, 0, flows[RedriveFlow(OP, "1") := flow], events)
    ensures Reaches(from, s', 30) && s'.db.now == s.db.now
  {
    RedriveAlone(s, OP, TENANT, "1", 30);
    s' := s.(db := RedriveDb(s.db, OP, TENANT, "1"));
    Joined(from, s, s', 30);
  }

  lemma TwoSecondsPass(from: State, s: State, r: Row, n: nat, flows: map<FlowId, Flow>, events: set<EventKey>)
    returns (s': State)
    requires Reaches(from, s, 30) && At(s, r, n, 0, flows, events)
    ensures At(s', r, n, 0, flows, events) && Reaches(from, s', 30) && s'.db.now == s.db.now + 2
  {
    TickAlone(s, 2, 30);
    s' := DoTick(s, 2);
    Joined(from, s, s', 30);
  }

  /** A path from an initial state is a run. */
  lemma RunTo(s: State, s': State) returns (trace: seq<State>, steps: seq<Step>)
    requires IsInit(s) && Reaches(s, s', 30)
    ensures DisciplinedRun(trace, steps, 30) && trace[|steps|] == s'
  {
    trace, steps :| Way(trace, steps, 30) && trace[0] == s && trace[|steps|] == s';
  }

  /** Create, publish, poll and report: the operation's first life. */
  lemma FirstLife(max: int) returns (from: State, s: State, flows: map<FlowId, Flow>, events: set<EventKey>)
    requires 1 <= max <= 10
    ensures IsInit(from) && Reaches(from, s, 30) && s.db.now == 0
    ensures flows == FlowsAfterReport(map[OperationFlow(OP) := Flow(ENV, 0, Done)], max, 1, 0)
    ensures events == {EventKey(OP, FailKind(FailTarget(true, 1, max)), 1)}
    ensures At(s, RestingRow(max, FailTarget(true, 1, max), 1, 3), 1, 0, flows, events)
  {
    var s0;
    from, s0 := Starts(max);
    var f0 := map[OperationFlow(OP) := Flow(ENV, 0, Waiting(false))];
    var s1 := IsClaimed(from, s0, max, Pending, 0, 0, 0, f0, {}, OperationFlow(OP));
    var f1 := map[OperationFlow(OP) := Flow(ENV, 0, Done)];
    assert f0[OperationFlow(OP) := Closed(f0[OperationFlow(OP)])] == f1;
    s := Reports(from, s1, max, 1, 45, 2, 1, f1, {});
    flows, events := FlowsAfterReport(f1, max, 1, 0), {} + {EventKey(OP, FailKind(FailTarget(true, 1, max)), 1)};
  }

  predicate AllDone(flows: map<FlowId, Flow>) {
    forall f :: f in flows ==> flows[f].phase == Done
  }

  predicate DoneBut(flows: map<FlowId, Flow>, f: FlowId) {
    forall g :: g in flows && g != f ==> flows[g].phase == Done
  }

  lemma LastIsDone(flows: map<FlowId, Flow>, f: FlowId)
    requires f in flows && DoneBut(flows, f)
    ensures AllDone(flows[f := Closed(flows[f])])
  {
  }

  /** The second attempt, once the first failure's workflow is through. */
  lemma SecondAttempt() returns (from: State, s: State, flows: map<FlowId, Flow>, events: set<EventKey>)
    ensures IsInit(from) && Reaches(from, s, 30) && s.db.now == 2 && At(s, RunningRow(2, 2, 47, 5), 2, 0, flows, events)
    ensures RetryFlow(OP, 1) in flows && RedriveFlow(OP, "1") !in flows && AllDone(flows)
  {
    var s2, f2;
    from, s2, f2, events := FirstLife(2);
    var s3 := TwoSecondsPass(from, s2, RestingRow(2, Retrying, 1, 3), 1, f2, events);
    Pow2Values();
    s := IsClaimed(from, s3, 2, Retrying, 1, 3, 1, f2, events, RetryFlow(OP, 1));
    flows := f2[RetryFlow(OP, 1) := Closed(f2[RetryFlow(OP, 1)])];
  }

  /** Dead-lettered and redriven. */
  lemma IsRedrivenLater() returns (from: State, s: State, flows: map<FlowId, Flow>, events: set<EventKey>)
    ensures IsInit(from) && Reaches(from, s, 30) && s.db.now == 2
    ensures At(s, RestingRow(2, Retrying, 0, 7), 2, 0, flows, events)
    ensures RetryFlow(OP, 1) in flows && RedriveFlow(OP, "1") in flows
    ensures flows[RedriveFlow(OP, "1")] == Flow(ENV, 2, Waiting(false)) && DoneBut(flows, RedriveFlow(OP, "1"))
  {
    var s4, f4, e4;
    from, s4, f4, e4 := SecondAttempt();
    var s5 := Reports(from, s4, 2, 2, 47, 5, 2, f4, e4);
    events := e4 + {EventKey(OP, DeadLetteredEvent, 2)};
    s := IsRedriven(from, s5, 2, 2, 6, 2, f4, events);
    flows := f4[RedriveFlow(OP, "1") := Flow(ENV, 2, Waiting(false))];
  }

  /** Its first attempt fails again. */
  lemma FailsAgain() returns (from: State, s: State, flows: map<FlowId, Flow>, events: set<EventKey>)
    ensures IsInit(from) && Reaches(from, s, 30) && At(s, RestingRow(2, Retrying, 1, 10), 3, 0, flows, events)
    ensures AllDone(flows)
  {
    var s6, f6, e6;
    from, s6, f6, e6 := IsRedrivenLater();
    var s7 := IsClaimed(from, s6, 2, Retrying, 0, 7, 2, f6, e6, RedriveFlow(OP, "1"));
    LastIsDone(f6, RedriveFlow(OP, "1"));
    flows := f6[RedriveFlow(OP, "1") := Closed(f6[RedriveFlow(OP, "1")])];
    s := Reports(from, s7, 2, 1, 47, 9, 3, flows, e6);
    assert FlowsAfterReport(flows, 2, 1, s7.db.now) == flows;
    events := e6 + {EventKey(OP, FailKind(FailTarget(true, 1, 2)), 1)};
  }

  lemma NothingIsGoingOn(s: State, n: nat, flows: map<FlowId, Flow>, events: set<EventKey>)
    requires At(s, RestingRow(2, Retrying, 1, 10), n, 0, flows, events) && AllDone(flows)
    ensures Stranded(s, OP)
  {
  }

  /**
   With two attempts: the first failure starts retry:a:1; after a dead-lettering and a redrive the first
   failure would start retry:a:1 again, which DBOS takes for the finished one. The operation is left
   RETRYING with nothing in progress: no workflow unfinished, no message unread, no request running.
   */
  lemma RedriveCanStrand() returns (trace: seq<State>, steps: seq<Step>)
    ensures DisciplinedRun(trace, steps, 30) && Stranded(trace[|steps|], OP)
  {
    var from, s, flows, events := FailsAgain();
    trace, steps := RunTo(from, s);
    NothingIsGoingOn(s, 3, flows, events);
  }
}
