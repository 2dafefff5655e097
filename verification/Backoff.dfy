/**
 The back-off an operation is made to wait, over its whole history: retries by RetryDelay, lease recoveries
 by two seconds.
 */
module Backoff {
  import opened Domain
  import opened Rows
  import opened Tables
  import opened Protocol
  import opened Effects
  import opened Budget
  import opened Charges

  /** Seconds scheduled by one change: the delay of the workflow that a close into RETRYING starts. */
  function Scheduled(c: Change): nat {
    if c.update.Fail? && c.to == Retrying then Delay(c.attempt)
    else if c.update.Reap? && c.to == Retrying then 2
    else 0
  }

  function TotalBackoff(history: seq<Change>): nat {
    if history == [] then 0
    else TotalBackoff(history[..|history| - 1]) + Scheduled(history[|history| - 1])
  }

  /** Attempts whose delay may have been scheduled. */
  function ClosedAttempts(r: Row): int {
    if r.status == Running then r.attempt - 1 else r.attempt
  }

  ghost predicate BackoffSound(r: Row, history: seq<Change>) {
    Redrives(history) == 0 ==> 0 <= ClosedAttempts(r) && TotalBackoff(history) <= DelaySum(ClosedAttempts(r))
  }

  lemma UpdateKeepsBackoff(r: Row, history: seq<Change>, u: Update)
    requires Matches(r, u) && BackoffSound(r, history)
    ensures BackoffSound(Apply(r, u), Record(history, r, u))
  {
    if !u.Heartbeat? {
      var after := Record(history, r, u);
      assert after[..|after| - 1] == history;
      DelayRange(r.attempt);
    }
  }

  ghost predicate AllBackoffSound(db: Db) {
    forall o :: o in db.rows && o in db.history ==> BackoffSound(db.rows[o], db.history[o])
  }

  lemma EffectKeepsBackoff(db: Db, e: Effect, db': Db)
    requires AllBackoffSound(db) && Follows(db, e, db')
    ensures AllBackoffSound(db')
  {
    if e.Changed? {
      UpdateKeepsBackoff(db.rows[e.o], db.history[e.o], e.u);
    }
  }

  lemma {:induction false} RunBackoff(trace: seq<State>, steps: seq<Step>, i: nat)
    requires Run(trace, steps) && i <= |steps|
    ensures AllBackoffSound(trace[i].db)
  {
    if i > 0 {
      RunBackoff(trace, steps, i - 1);
      StepEffects(trace[i - 1], steps[i - 1], trace[i]);
      EffectKeepsBackoff(trace[i - 1].db, EffectOf(trace[i - 1], steps[i - 1]), trace[i].db);
    }
  }

  lemma {:induction false} DelaySumMonotone(m: nat, n: nat)
    requires m <= n
    ensures DelaySum(m) <= DelaySum(n)
  {
    if m < n {
      DelaySumMonotone(m, n - 1);
    }
  }

  // ----- What the history says is scheduled is what the workflows are given -----

  /**
   The step commits handler `h` to start the workflow `f`, after the delay the last history entry of its
   operation stands for.
   */
  predicate GivesDelay(db: Db, s': State, h: nat, f: FlowId) {
    && h in s'.handlers && s'.handlers[h].Starting? && s'.handlers[h].flow == f
    && f.op in s'.db.history && s'.db.history[f.op] != []
    && s'.handlers[h].notBefore == db.now + Scheduled(s'.db.history[f.op][|s'.db.history[f.op]| - 1])
  }

  lemma ReportGivesDelay(s: State, h: nat, s': State)
    requires CanFailWrite(s, h) && s' == DoFailWrite(s, h) && ReportFresh(s.db, s.handlers[h])
    requires FailHits(s, s.handlers[h]) && FailUpdate(s.handlers[h]).to == Retrying
    ensures GivesDelay(s.db, s', h, RetryFlow(s.handlers[h].op, s.handlers[h].attempt))
  {
    var x := s.handlers[h];
    assert Write(s.db, x.op, FailUpdate(x)).history[x.op] == Record(s.db.history[x.op], s.db.rows[x.op], FailUpdate(x));
  }

  lemma RecoveryGivesDelay(s: State, h: nat, s': State)
    requires CanReapWrite(s, h) && s' == DoReapWrite(s, h)
    requires Hits(s.db, s.handlers[h].items[0].op, ReapUpdate(s, s.handlers[h].items[0]))
    requires ReapTarget(s.handlers[h].items[0]) == Retrying
    ensures GivesDelay(s.db, s', h, RecoveryFlow(s.handlers[h].items[0].op, s.handlers[h].items[0].attempt))
  {
  }

  predicate Numbered(f: Option<FlowId>) {
    f.Some? && (f.value.RetryFlow? || f.value.RecoveryFlow?)
  }

  /** A close into RETRYING hands its workflow exactly the delay its history entry stands for. */
  lemma ScheduledDelayIsGiven(s: State, step: Step, s': State, window: int)
    requires Budgeted(s, window) && Next(s, step, s') && Numbered(NewStart(s, step))
    ensures ActorOf(step).Some? && GivesDelay(s.db, s', ActorOf(step).value, NewStart(s, step).value)
  {
    match step
    case ByOwner(x) =>
      assert ReportFresh(s.db, s.handlers[x.h]);
      ReportGivesDelay(s, x.h, s');
    case ByReap(x) => RecoveryGivesDelay(s, x.h, s');
    case _ =>
  }

  /** The workflow that RunWorkflow adds carries that delay. */
  lemma DelayIsCarried(s: State, h: nat)
    requires CanStart(s, h) && s.handlers[h].flow !in s.db.flows
    ensures Carries(DoStart(s, h).db, s.handlers[h].flow, s.handlers[h].notBefore)
  {
    var x := s.handlers[h];
    var db := RunWorkflow(s.db, x.flow, x.env, x.notBefore);
    assert DoStart(s, h).db == db;
  }

  predicate Carries(db: Db, f: FlowId, notBefore: int) {
    f in db.flows && db.flows[f].notBefore == notBefore
  }

  lemma CarriesOn(s: State, step: Step, s': State, f: FlowId, notBefore: int)
    requires Next(s, step, s') && Carries(s.db, f, notBefore)
    ensures Carries(s'.db, f, notBefore)
  {
    StepQueues(s, step, s');
  }

  lemma {:induction false} CarriedFor(trace: seq<State>, steps: seq<Step>, i: nat, j: nat, h: nat)
    requires Run(trace, steps) && i < j <= |steps| && steps[i] == ByCreate(StStart(h))
    requires CanStart(trace[i], h) && trace[i].handlers[h].flow !in trace[i].db.flows
    ensures Carries(trace[j].db, trace[i].handlers[h].flow, trace[i].handlers[h].notBefore)
  {
    if j == i + 1 {
      StartIsDone(trace, steps, i, h);
      DelayIsCarried(trace[i], h);
    } else {
      CarriedFor(trace, steps, i, j - 1, h);
      CarriesOn(trace[j - 1], steps[j - 1], trace[j], trace[i].handlers[h].flow, trace[i].handlers[h].notBefore);
    }
  }

  lemma StartIsDone(trace: seq<State>, steps: seq<Step>, i: nat, h: nat)
    requires Run(trace, steps) && i < |steps| && steps[i] == ByCreate(StStart(h))
    ensures CanStart(trace[i], h) && trace[i + 1] == DoStart(trace[i], h)
  {
    assert Next(trace[i], steps[i], trace[i + 1]);
  }

  /** In any run: a workflow that a handler starts never runs its UPDATE before the time the handler was given. */
  lemma DelayIsObserved(trace: seq<State>, steps: seq<Step>, i: nat, j: nat, h: nat)
    requires Run(trace, steps) && i < j < |steps| && steps[i] == ByCreate(StStart(h))
    requires CanStart(trace[i], h) && trace[i].handlers[h].flow !in trace[i].db.flows
    requires steps[j] == ByFlow(StFlowUpdate(trace[i].handlers[h].flow))
    ensures trace[j].db.now >= trace[i].handlers[h].notBefore
  {
    CarriedFor(trace, steps, i, j, h);
    UpdateIsDue(trace, steps, j, trace[i].handlers[h].flow);
  }

  lemma UpdateIsDue(trace: seq<State>, steps: seq<Step>, j: nat, f: FlowId)
    requires Run(trace, steps) && j < |steps| && steps[j] == ByFlow(StFlowUpdate(f))
    ensures f in trace[j].db.flows && trace[j].db.flows[f].notBefore <= trace[j].db.now
  {
    assert Next(trace[j], steps[j], trace[j + 1]);
  }

  /** In any disciplined run: every retry or recovery workflow is told to wait what its operation's history adds up. */
  lemma RunGivesScheduledDelay(trace: seq<State>, steps: seq<Step>, window: int, i: nat)
    requires DisciplinedRun(trace, steps, window) && i < |steps| && Numbered(NewStart(trace[i], steps[i]))
    ensures ActorOf(steps[i]).Some? && ActorOf(steps[i]).value in trace[i + 1].handlers
    ensures
      var o, x := NewStart(trace[i], steps[i]).value.op, trace[i + 1].handlers[ActorOf(steps[i]).value];
      && x.Starting? && o in trace[i].db.history && o in trace[i + 1].db.history
      && x.notBefore - trace[i].db.now
          == TotalBackoff(trace[i + 1].db.history[o]) - TotalBackoff(trace[i].db.history[o])
  {
    RunBudgeted(trace, steps, window, i);
    ScheduledDelayIsGiven(trace[i], steps[i], trace[i + 1], window);
    StepEffects(trace[i], steps[i], trace[i + 1]);
    CloseAppends(trace[i], steps[i], trace[i + 1]);
  }

  lemma CloseAppends(s: State, step: Step, s': State)
    requires Follows(s.db, EffectOf(s, step), s'.db) && Numbered(NewStart(s, step))
    ensures
      var o := NewStart(s, step).value.op;
      && o in s.db.history && o in s'.db.history && s'.db.history[o] != []
      && s'.db.history[o][..|s'.db.history[o]| - 1] == s.db.history[o]
  {
    match step
    case ByOwner(_) =>
    case ByReap(_) =>
    case _ =>
  }

  /**
   Never redriven, an operation waits at most the delays of its first max_attempts attempts, in any mix of
   reports and recoveries.
   */
  lemma BackoffAtMostDelaySum(trace: seq<State>, steps: seq<Step>, window: int, i: nat, o: string)
    requires DisciplinedRun(trace, steps, window) && i <= |steps| && o in trace[i].db.rows
    requires NeverRedriven(trace[i].db, o)
    ensures
      var max := trace[i].db.rows[o].maxAttempts;
      max >= 0 && TotalBackoff(trace[i].db.history[o]) <= DelaySum(max)
  {
    RunBackoff(trace, steps, i);
    AttemptBudget(trace, steps, window, i, o);
    DelaySumMonotone(ClosedAttempts(trace[i].db.rows[o]), trace[i].db.rows[o].maxAttempts);
  }
}
