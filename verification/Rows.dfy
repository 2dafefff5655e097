/**
 One row of operations.operations, the guarded UPDATE statements that change it, and what
 every sequence of such statements keeps. A statement that matches no row changes nothing,
 so only matching updates appear here.
 */
module Rows {
  import opened Domain

  datatype Mode = Private | Cloud

  datatype Row = Row(
    tenant: string, mode: Mode, key: string, status: Status, attempt: int, maxAttempts: int,
    owner: Option<string>, expires: Option<int>, version: int)

  function NewRow(tenant: string, mode: Mode, key: string, maxAttempts: int): Row {
    Row(tenant, mode, key, Pending, 0, maxAttempts, None, None, 0)
  }

  datatype Update =
    | Enqueue
    | Claim(worker: string, until: int)
    | Heartbeat(worker: string, until: int)
    | Complete(worker: string)
    | Fail(worker: string, to: Status)
    | Reap(now: int, to: Status)
    | Cancel
    | Redrive

  predicate Claimable(status: Status) {
    status == Queued || status == Retrying
  }

  predicate OwnedBy(r: Row, worker: string) {
    r.status == Running && r.owner == Some(worker)
  }

  /** The WHERE clause of the statement. */
  predicate Matches(r: Row, u: Update) {
    match u
    case Enqueue => r.status == Pending || r.status == Retrying
    case Claim(_, _) => Claimable(r.status)
    case Heartbeat(worker, _) => OwnedBy(r, worker)
    case Complete(worker) => OwnedBy(r, worker)
    case Fail(worker, to) => OwnedBy(r, worker) && to in {Retrying, DeadLettered}
    case Reap(now, to) =>
      r.status == Running && r.expires.Some? && r.expires.value < now && to in {Retrying, DeadLettered}
    case Cancel => r.status in {Pending, Queued, Running, Retrying, Failed}
    case Redrive => r.status == Failed || r.status == DeadLettered
  }

  /** The status the SET clause writes. */
  function Target(from: Status, u: Update): Status {
    match u
    case Enqueue => Queued
    case Claim(_, _) => Running
    case Heartbeat(_, _) => from
    case Complete(_) => Succeeded
    case Fail(_, to) => to
    case Reap(_, to) => to
    case Cancel => Cancelled
    case Redrive => Retrying
  }

  /** The SET clause. Enqueue and Redrive do not mention the lease columns. */
  function Apply(r: Row, u: Update): Row
    requires Matches(r, u)
  {
    match u
    case Claim(worker, until) =>
      r.(status := Running, attempt := r.attempt + 1, owner := Some(worker), expires := Some(until),
          version := r.version + 1)
    case Heartbeat(_, until) => r.(expires := Some(until))
    case Enqueue => r.(status := Queued, version := r.version + 1)
    case Redrive => r.(status := Retrying, attempt := 0, version := r.version + 1)
    case _ => r.(status := Target(r.status, u), owner := None, expires := None, version := r.version + 1)
  }

  /** A status change, as recorded in an operation's history. Heartbeats change no status. */
  datatype Change = Change(update: Update, from: Status, to: Status, attempt: int)

  function Record(history: seq<Change>, r: Row, u: Update): seq<Change> {
    if u.Heartbeat? then history else history + [Change(u, r.status, Target(r.status, u), r.attempt)]
  }

  // ----- Lease fencing over a whole history -----

  /** Who holds the lease after these changes: the latest claimant, unless something closed it since. */
  function Holder(history: seq<Change>): Option<string> {
    if history == [] then None
    else
      match history[|history| - 1].update
      case Claim(worker, _) => Some(worker)
      case _ => None
  }

  function Last(history: seq<Change>): Status {
    if history == [] then Pending else history[|history| - 1].to
  }

  /** A change leaves the table only by the one edge the redrive statement adds to it. */
  predicate LegalEdge(c: Change) {
    CanTransition(c.from, c.to) || (c.update.Redrive? && c.from == DeadLettered && c.to == Retrying)
  }

  /** Changes chain up, claims open a free lease, and what closes a lease is its holder, the reaper or a cancel. */
  predicate Fenced(history: seq<Change>) {
    history == [] ||
    (var before, c := history[..|history| - 1], history[|history| - 1];
     && Fenced(before)
     && c.from == Last(before)
     && LegalEdge(c)
     && c.to == Target(c.from, c.update)
     && match c.update
        case Claim(_, _) => Holder(before) == None
        case Complete(worker) => Holder(before) == Some(worker)
        case Fail(worker, to) => Holder(before) == Some(worker) && to in {Retrying, DeadLettered}
        case Reap(_, to) => Holder(before).Some? && to in {Retrying, DeadLettered}
        case Cancel => true
        case Enqueue => Holder(before) == None
        case Redrive => Holder(before) == None
        case Heartbeat(_, _) => false)
  }

  /** What ties a row to its history: lease columns, status and version are functions of the changes made. */
  ghost predicate Sound(r: Row, history: seq<Change>) {
    && Fenced(history)
    && r.owner == Holder(history)
    && r.status == Last(history)
    && r.version == |history|
    && (r.status == Running <==> r.owner.Some?)
    && (r.status == Running <==> r.expires.Some?)
    && r.status != Failed
  }

  lemma NewRowSound(tenant: string, mode: Mode, key: string, maxAttempts: int)
    ensures Sound(NewRow(tenant, mode, key, maxAttempts), [])
  {
  }

  lemma UpdateKeepsSound(r: Row, history: seq<Change>, u: Update)
    requires Sound(r, history) && Matches(r, u)
    ensures Sound(Apply(r, u), Record(history, r, u))
  {
    if !u.Heartbeat? {
      var after := Record(history, r, u);
      assert after[..|after| - 1] == history;
      assert LegalEdge(after[|after| - 1]);
    }
  }

  function Claims(history: seq<Change>): nat {
    if history == [] then 0
    else Claims(history[..|history| - 1]) + if history[|history| - 1].update.Claim? then 1 else 0
  }

  /** Changes that take an operation out of RUNNING. */
  function Closes(history: seq<Change>): nat {
    if history == [] then 0
    else Closes(history[..|history| - 1]) + if history[|history| - 1].from == Running then 1 else 0
  }

  function Redrives(history: seq<Change>): nat {
    if history == [] then 0
    else Redrives(history[..|history| - 1]) + if history[|history| - 1].update.Redrive? then 1 else 0
  }

  /** Claims and closes alternate: every claim is closed exactly once, except an open last one. */
  lemma {:induction false} EveryClaimClosedOnce(history: seq<Change>)
    requires Fenced(history)
    ensures Claims(history) == Closes(history) + if Holder(history).Some? then 1 else 0
    ensures Holder(history).Some? <==> Last(history) == Running
  {
    if history != [] {
      EveryClaimClosedOnce(history[..|history| - 1]);
    }
  }

  /** SUCCEEDED and CANCELLED are absorbing; DEAD_LETTERED is left only by redrive; FAILED is never entered. */
  lemma {:induction false} FinalStatuses(history: seq<Change>, i: nat)
    requires Fenced(history) && i < |history|
    ensures history[i].to != Failed
    ensures history[i].from !in {Succeeded, Cancelled}
    ensures history[i].from == DeadLettered ==> history[i].update.Redrive?
    ensures i > 0 ==> history[i].from == history[i - 1].to
  {
    var n := |history| - 1;
    if i < n {
      FinalStatuses(history[..n], i);
    } else {
      var before := history[..n];
      assert Last(before) == if n == 0 then Pending else before[n - 1].to;
      EveryClaimClosedOnce(before);
    }
  }

  // ----- Attempt budget and termination -----

  /** Attempts spent, against the budget the operation was created with. */
  predicate WithinBudget(r: Row) {
    && 1 <= r.maxAttempts
    && 0 <= r.attempt <= r.maxAttempts
    && (r.status in {Pending, Queued, Retrying} ==> r.attempt < r.maxAttempts)
    && (r.status in {Running, Succeeded, DeadLettered} ==> 1 <= r.attempt)
    && (r.status == Pending ==> r.attempt == 0)
  }

  /** A close into RETRYING spends no more than the budget; every other statement needs no check at all. */
  predicate Affordable(r: Row, u: Update) {
    (u.Fail? && u.to == Retrying) || (u.Reap? && u.to == Retrying) ==> r.attempt < r.maxAttempts
  }

  /** The claim statement never looks at the budget: it is kept exactly when each way into RETRYING is affordable. */
  lemma BudgetKeptExactly(r: Row, u: Update)
    requires WithinBudget(r) && Matches(r, u) && r.status != Failed
    ensures WithinBudget(Apply(r, u)) <==> Affordable(r, u)
  {
  }

  function Rank(status: Status): nat {
    match status
    case Running => 3
    case Pending => 2
    case Retrying => 2
    case Queued => 1
    case _ => 0
  }

  /** Between redrives every status change decreases (attempts left, rank) lexicographically. */
  lemma MeasureDecreases(r: Row, u: Update)
    requires WithinBudget(r) && Matches(r, u) && Affordable(r, u) && r.status != Failed
    requires !u.Heartbeat? && !u.Redrive?
    ensures
      var r' := Apply(r, u);
      && 0 <= r'.maxAttempts - r'.attempt
      && (r'.maxAttempts - r'.attempt < r.maxAttempts - r.attempt
          || (r'.attempt == r.attempt && Rank(r'.status) < Rank(r.status)))
  {
  }

  /** The most status changes an operation can have seen since its last redrive. */
  function Progress(r: Row): int {
    match r.status
    case Pending => 0
    case Queued => 3 * r.attempt + 1
    case Running => 3 * r.attempt - 1
    case Retrying => 3 * r.attempt
    case Cancelled => 3 * r.maxAttempts
    case _ => 3 * r.attempt
  }

  ghost predicate VersionBounded(r: Row, history: seq<Change>) {
    r.version <= Redrives(history) * (3 * r.maxAttempts + 1) + Progress(r)
  }

  lemma UpdateKeepsVersionBound(r: Row, history: seq<Change>, u: Update)
    requires Sound(r, history) && WithinBudget(r) && VersionBounded(r, history)
    requires Matches(r, u) && Affordable(r, u)
    ensures VersionBounded(Apply(r, u), Record(history, r, u))
  {
    if !u.Heartbeat? {
      var after := Record(history, r, u);
      assert after[..|after| - 1] == history;
      var k, unit := Redrives(history), 3 * r.maxAttempts + 1;
      assert Redrives(after) == if u.Redrive? then k + 1 else k;
      assert (k + 1) * unit == k * unit + unit;
    }
  }

  /** `version` counts status changes, and there are at most 3 per attempt plus one redrive's worth per redrive. */
  lemma VersionBound(r: Row, history: seq<Change>)
    requires Sound(r, history) && WithinBudget(r) && VersionBounded(r, history)
    ensures |history| == r.version <= 3 * r.maxAttempts + Redrives(history) * (3 * r.maxAttempts + 1)
  {
  }
}
