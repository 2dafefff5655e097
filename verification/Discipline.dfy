/**
 When a worker id has one request outstanding at a time. Behind each id is a client that opens a call when
 its last one was answered, or when it has waited as long as it waits for any (Agent.MayOpen): 45 seconds in
 the enterprise worker, 30 by default in the cloud worker. Its runs are the disciplined ones exactly when no
 handler is still at work for a worker that has given up on it and opens its next call.
 */
module Discipline {
  import opened Domain
  import opened Tables
  import opened Protocol
  import opened Effects
  import opened Budget
  import Agent

  /** REQUEST_TIMEOUT_SECONDS, unless set otherwise. */
  const CLOUD_PATIENCE := 30

  datatype Opening = Opening(worker: string, h: nat, patience: int)

  /** The request a step opens for a worker, and how long its client waits for the answer. */
  function OpeningOf(step: Step): Option<Opening> {
    match step
    case ByPoll(StPollBegin(h, _, worker)) => Some(Opening(worker, h, Agent.PATIENCE))
    case ByClaim(StClaimBegin(h, _, worker, _)) => Some(Opening(worker, h, CLOUD_PATIENCE))
    case ByOwner(StFailRead(h, _, route, worker, _)) =>
      Some(Opening(worker, h, if route.Some? then Agent.PATIENCE else CLOUD_PATIENCE))
    case _ => None
  }

  predicate Opens(step: Step, worker: string) {
    OpeningOf(step).Some? && OpeningOf(step).value.worker == worker
  }

  /** A worker's latest request: its handler, and until when the client waits for it. */
  datatype Latest = Latest(h: nat, until: int)

  function LatestOf(trace: seq<State>, steps: seq<Step>, i: nat, worker: string): Option<Latest>
    requires i <= |steps| < |trace|
  {
    if i == 0 then None
    else if Opens(steps[i - 1], worker) then
      var x := OpeningOf(steps[i - 1]).value;
      Some(Latest(x.h, trace[i - 1].db.now + x.patience))
    else LatestOf(trace, steps, i - 1, worker)
  }

  predicate Busy(s: State, last: Option<Latest>, worker: string) {
    last.Some? && last.value.h in s.handlers && WorkerOf(s.handlers[last.value.h]) == Some(worker)
  }

  predicate MayOpen(s: State, last: Option<Latest>, worker: string) {
    Agent.MayOpen(if last.None? then None else Some(last.value.until), Busy(s, last, worker), s.db.now)
  }

  /** The worker's handler is through, or its client still waits for it. */
  predicate InTime(s: State, last: Option<Latest>, worker: string) {
    Busy(s, last, worker) ==> s.db.now < last.value.until
  }

  /** Every request is opened by a client that may open it. */
  ghost predicate AgentRun(trace: seq<State>, steps: seq<Step>) {
    && Run(trace, steps)
    && forall i, w :: 0 <= i < |steps| && Opens(steps[i], w) ==> MayOpen(trace[i], LatestOf(trace, steps, i, w), w)
  }

  /** No request is opened while its worker's last handler has outlived the client's patience. */
  ghost predicate AllInTime(trace: seq<State>, steps: seq<Step>)
    requires |steps| < |trace|
  {
    forall i, w :: 0 <= i < |steps| && Opens(steps[i], w) ==> InTime(trace[i], LatestOf(trace, steps, i, w), w)
  }

  ghost predicate AllIdle(trace: seq<State>, steps: seq<Step>)
    requires |steps| < |trace|
  {
    forall i, w :: 0 <= i < |steps| && Opens(steps[i], w) ==> Idle(trace[i], w)
  }

  /** What discipline asks of claims and reapers, in seconds of lease. */
  predicate OnTime(s: State, step: Step, window: int) {
    && (step.ByClaim? && step.claim.StClaimCommit? && InClaim(s, step.claim.h) ==>
          s.handlers[step.claim.h].c.startedAt + s.handlers[step.claim.h].c.seconds >= s.db.now + window)
    && (step.ByReap? && step.reap.StReapWrite? && CanReapWrite(s, step.reap.h) ==>
          s.db.now <= s.handlers[step.reap.h].at + window)
  }

  ghost predicate AllOnTime(trace: seq<State>, steps: seq<Step>, window: int)
    requires |steps| < |trace|
  {
    forall i :: 0 <= i < |steps| ==> OnTime(trace[i], steps[i], window)
  }

  // ----- One handler per worker -----

  /** Every handler working for a worker is the one of its latest request. */
  ghost predicate OneCall(trace: seq<State>, steps: seq<Step>, i: nat)
    requires i <= |steps| < |trace|
  {
    forall k :: k in trace[i].handlers ==>
      && OwnClaim(trace[i].handlers[k])
      && (WorkerOf(trace[i].handlers[k]).Some? ==>
            var last := LatestOf(trace, steps, i, WorkerOf(trace[i].handlers[k]).value);
            last.Some? && last.value.h == k)
  }

  /** A handler works for whom it worked before the step, or the step opened its request. */
  lemma HandlerKeepsWorker(s: State, step: Step, s': State, k: nat)
    requires Next(s, step, s') && k in s'.handlers && (forall j :: j in s.handlers ==> OwnClaim(s.handlers[j]))
    ensures OwnClaim(s'.handlers[k])
    ensures
      var w := WorkerOf(s'.handlers[k]);
      || w.None?
      || (k in s.handlers && WorkerOf(s.handlers[k]) == w && !(Opens(step, w.value) && OpeningOf(step).value.h == k))
      || (Opens(step, w.value) && OpeningOf(step).value.h == k)
  {
    StepLocal(s, step, s');
    if ActorOf(step) == Some(k) {
      ActorKeepsWorker(s, step, s', k);
    }
  }

  lemma OneCallStays(trace: seq<State>, steps: seq<Step>, i: nat)
    requires i < |steps| < |trace| && Next(trace[i], steps[i], trace[i + 1]) && OneCall(trace, steps, i)
    requires forall w :: Opens(steps[i], w) ==> Idle(trace[i], w)
    ensures OneCall(trace, steps, i + 1)
  {
    var handlers := trace[i + 1].handlers;
    forall k | k in handlers
      ensures OwnClaim(handlers[k])
      ensures WorkerOf(handlers[k]).Some? ==>
                var last := LatestOf(trace, steps, i + 1, WorkerOf(handlers[k]).value);
                last.Some? && last.value.h == k
    {
      HandlerKeepsWorker(trace[i], steps[i], trace[i + 1], k);
    }
  }

  /**
   With one handler per worker, a client finds its worker idle exactly when it may open a call and its
   handler is in time.
   */
  lemma IdleExactlyInTime(trace: seq<State>, steps: seq<Step>, i: nat, worker: string)
    requires i <= |steps| < |trace| && OneCall(trace, steps, i)
    ensures
      var last := LatestOf(trace, steps, i, worker);
      && Idle(trace[i], worker) == !Busy(trace[i], last, worker)
      && (Idle(trace[i], worker) <==> MayOpen(trace[i], last, worker) && InTime(trace[i], last, worker))
  {
    var last := LatestOf(trace, steps, i, worker);
    if !Busy(trace[i], last, worker) {
      forall k | k in trace[i].handlers
        ensures WorkerOf(trace[i].handlers[k]) != Some(worker)
      {
      }
    }
  }

  lemma OpeningFindsIdle(trace: seq<State>, steps: seq<Step>, i: nat)
    requires AgentRun(trace, steps) && AllInTime(trace, steps) && i < |steps| && OneCall(trace, steps, i)
    ensures forall w :: Opens(steps[i], w) ==> Idle(trace[i], w)
  {
    var step := steps[i];
    forall w | Opens(step, w)
      ensures Idle(trace[i], w)
    {
      assert MayOpen(trace[i], LatestOf(trace, steps, i, w), w);
      IdleExactlyInTime(trace, steps, i, w);
    }
  }

  lemma {:induction false} RunOneCall(trace: seq<State>, steps: seq<Step>, i: nat)
    requires AgentRun(trace, steps) && AllInTime(trace, steps) && i <= |steps|
    ensures OneCall(trace, steps, i)
  {
    if i > 0 {
      RunOneCall(trace, steps, i - 1);
      OpeningFindsIdle(trace, steps, i - 1);
      OneCallStays(trace, steps, i - 1);
    }
  }

  // ----- Results -----

  /**
   Sequential clients: every request finds its worker idle if and only if every handler is through in its
   client's time.
   */
  lemma AgentsIdleExactlyInTime(trace: seq<State>, steps: seq<Step>)
    requires AgentRun(trace, steps)
    ensures AllIdle(trace, steps) <==> AllInTime(trace, steps)
  {
    if AllInTime(trace, steps) {
      forall i, w | 0 <= i < |steps| && Opens(steps[i], w)
        ensures Idle(trace[i], w)
      {
        RunOneCall(trace, steps, i);
        OpeningFindsIdle(trace, steps, i);
      }
    }
    if AllIdle(trace, steps) {
      forall i, w | 0 <= i < |steps| && Opens(steps[i], w)
        ensures InTime(trace[i], LatestOf(trace, steps, i, w), w)
      {
        assert Idle(trace[i], w);
      }
    }
  }

  /**
   The disciplined runs are exactly those of sequential clients whose handlers, claims and reapers are all in
   time.
   */
  lemma DisciplinedExactly(trace: seq<State>, steps: seq<Step>, window: int)
    requires 0 < window <= 30
    ensures DisciplinedRun(trace, steps, window)
            <==> AgentRun(trace, steps) && AllInTime(trace, steps) && AllOnTime(trace, steps, window)
  {
    if AgentRun(trace, steps) && AllInTime(trace, steps) && AllOnTime(trace, steps, window) {
      AgentsIdleExactlyInTime(trace, steps);
      forall i | 0 <= i < |steps|
        ensures Disciplined(trace[i], steps[i], window)
      {
        OpeningIdle(trace, steps, i);
        assert OnTime(trace[i], steps[i], window);
      }
    }
    if DisciplinedRun(trace, steps, window) {
      forall i, w | 0 <= i < |steps| && Opens(steps[i], w)
        ensures Idle(trace[i], w) && MayOpen(trace[i], LatestOf(trace, steps, i, w), w)
      {
        assert Disciplined(trace[i], steps[i], window);
      }
      assert AgentRun(trace, steps);
      AgentsIdleExactlyInTime(trace, steps);
      forall i | 0 <= i < |steps|
        ensures OnTime(trace[i], steps[i], window)
      {
        assert Disciplined(trace[i], steps[i], window);
      }
    }
  }

  lemma OpeningIdle(trace: seq<State>, steps: seq<Step>, i: nat)
    requires i < |steps| < |trace| && AllIdle(trace, steps)
    ensures OpeningOf(steps[i]).Some? ==> Idle(trace[i], OpeningOf(steps[i]).value.worker)
  {
    if OpeningOf(steps[i]).Some? {
      assert Opens(steps[i], OpeningOf(steps[i]).value.worker);
    }
  }
}
