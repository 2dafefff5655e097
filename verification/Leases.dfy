/** Lease fencing and the status table, over whole runs: no assumption on workers, timing or redrives. */
module Leases {
  import opened Domain
  import opened Rows
  import opened Tables
  import opened Protocol
  import opened Effects

  ghost predicate RowsSound(db: Db) {
    && db.history.Keys == db.rows.Keys
    && (forall o :: o in db.rows ==> Sound(db.rows[o], db.history[o]))
  }

  lemma EffectKeepsRowsSound(db: Db, e: Effect, db': Db)
    requires RowsSound(db) && Follows(db, e, db')
    ensures RowsSound(db')
  {
    if e.Changed? {
      UpdateKeepsSound(db.rows[e.o], db.history[e.o], e.u);
    } else if e.Added? {
      NewRowSound(e.r.tenant, e.r.mode, e.r.key, e.r.maxAttempts);
    }
  }

  lemma {:induction false} RunSound(trace: seq<State>, steps: seq<Step>, i: nat)
    requires Run(trace, steps) && i <= |steps|
    ensures RowsSound(trace[i].db)
  {
    if i > 0 {
      RunSound(trace, steps, i - 1);
      StepEffects(trace[i - 1], steps[i - 1], trace[i]);
      EffectKeepsRowsSound(trace[i - 1].db, EffectOf(trace[i - 1], steps[i - 1]), trace[i].db);
    }
  }

  /** In any run: the lease columns are set exactly when RUNNING, and name the latest claimant. */
  lemma LeaseExactlyWhenRunning(trace: seq<State>, steps: seq<Step>, i: nat, o: string)
    requires Run(trace, steps) && i <= |steps| && o in trace[i].db.rows
    ensures o in trace[i].db.history
    ensures
      var r, history := trace[i].db.rows[o], trace[i].db.history[o];
      && (r.status == Running <==> r.owner.Some?)
      && (r.status == Running <==> r.expires.Some?)
      && r.owner == Holder(history)
      && Claims(history) == Closes(history) + if r.status == Running then 1 else 0
  {
    RunSound(trace, steps, i);
    EveryClaimClosedOnce(trace[i].db.history[o]);
  }

  /** In any run: every status change is an edge of the table, or a redrive; FAILED is never written. */
  lemma ChangesFollowTable(trace: seq<State>, steps: seq<Step>, i: nat, o: string, k: nat)
    requires Run(trace, steps) && i <= |steps| && o in trace[i].db.history && k < |trace[i].db.history[o]|
    ensures
      var history := trace[i].db.history[o];
      var c := history[k];
      && (CanTransition(c.from, c.to) || (c.from == DeadLettered && c.to == Retrying && c.update.Redrive?))
      && c.from == (if k == 0 then Pending else history[k - 1].to)
      && c.to != Failed && c.from != Succeeded && c.from != Cancelled
      && (c.from == DeadLettered ==> c.update.Redrive?)
  {
    RunSound(trace, steps, i);
    var history := trace[i].db.history[o];
    FinalStatuses(history, k);
    ChangeIsLegal(history, k);
  }

  lemma {:induction false} ChangeIsLegal(history: seq<Change>, k: nat)
    requires Fenced(history) && k < |history|
    ensures LegalEdge(history[k])
    ensures k == 0 ==> history[k].from == Pending
  {
    if k < |history| - 1 {
      ChangeIsLegal(history[..|history| - 1], k);
    }
  }

  /** In any run, whatever crashes: the row moves to QUEUED at most once per entry into PENDING or RETRYING. */
  lemma QueuedOncePerEntry(trace: seq<State>, steps: seq<Step>, i: nat, o: string, j: nat, k: nat)
    requires Run(trace, steps) && i <= |steps| && o in trace[i].db.history && j < k < |trace[i].db.history[o]|
    requires trace[i].db.history[o][j].to == Queued && trace[i].db.history[o][k].to == Queued
    ensures exists m :: j < m < k && trace[i].db.history[o][m].to == Retrying
  {
    ChangesFollowTable(trace, steps, i, o, k);
    ChangesFollowTable(trace, steps, i, o, k - 1);
    assert trace[i].db.history[o][k - 1].to == Retrying;
  }

  lemma EffectCountsChange(db: Db, e: Effect, db': Db, o: string)
    requires RowsSound(db) && Follows(db, e, db') && o in db.rows
    ensures o in db'.rows && o in db'.history
    ensures db'.rows[o].status != db.rows[o].status <==> db'.rows[o].version == db.rows[o].version + 1
    ensures db'.rows[o].status == db.rows[o].status <==> db'.history[o] == db.history[o]
  {
    if e.Changed? && e.o == o {
      ApplyCountsChange(db.rows[o], db.history[o], e.u);
    }
  }

  lemma ApplyCountsChange(r: Row, history: seq<Change>, u: Update)
    requires Sound(r, history) && Matches(r, u)
    ensures Apply(r, u).status != r.status <==> Apply(r, u).version == r.version + 1
    ensures Apply(r, u).status == r.status <==> Record(history, r, u) == history
  {
    if !u.Heartbeat? {
      assert |Record(history, r, u)| == |history| + 1;
    }
  }

  /** A step changes an operation's status exactly when it appends one change to the history and bumps `version`. */
  lemma VersionCountsChanges(s: State, step: Step, s': State, o: string)
    requires RowsSound(s.db) && Next(s, step, s') && o in s.db.rows
    ensures o in s'.db.rows && o in s'.db.history
    ensures s'.db.rows[o].version == |s'.db.history[o]|
    ensures s'.db.rows[o].status != s.db.rows[o].status <==> s'.db.rows[o].version == s.db.rows[o].version + 1
    ensures s'.db.rows[o].status == s.db.rows[o].status <==> s'.db.history[o] == s.db.history[o]
  {
    StepEffects(s, step, s');
    var e := EffectOf(s, step);
    EffectKeepsRowsSound(s.db, e, s'.db);
    EffectCountsChange(s.db, e, s'.db, o);
  }

  /** Reports and heartbeats of anyone but the latest claimant of an open lease change no row, event or workflow. */
  lemma StrangersChangeNothing(s: State, op: string, route: Option<string>, worker: string, h: nat)
    requires RowsSound(s.db) && op in s.db.history && Holder(s.db.history[op]) != Some(worker)
    ensures !CanHeartbeat(s, op, route, worker)
    ensures !CanComplete(s, op, route, worker)
    ensures !CanFailRead(s, h, op, route, worker)
    ensures CanFailWrite(s, h) && s.handlers[h].op == op && s.handlers[h].worker == worker ==>
        DoFailWrite(s, h) == Drop(s, h)
  {
  }
}
