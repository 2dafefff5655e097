/**
 What each handler of Service.dfy does when nothing interleaves is reached by a disciplined run of the
 interleaving machine: what is proved of every run holds of it, and it can be used to build concrete runs.
 */
module Alone {
  import opened Domain
  import opened Rows
  import opened Tables
  import opened Protocol
  import opened Budget
  import opened Handlers

  /** The tables, with no request in progress. */
  function Quiet(db: Db, replies: set<(string, string, string)>): State {
    State(db, map[], map[], map[], replies)
  }

  function With(s: State, x: Handler): State {
    s.(handlers := map[0 := x])
  }

  ghost predicate Way(trace: seq<State>, steps: seq<Step>, window: int) {
    && |trace| == |steps| + 1
    && (forall i :: 0 <= i < |steps| ==>
          Next(trace[i], steps[i], trace[i + 1]) && Disciplined(trace[i], steps[i], window))
  }

  ghost predicate Reaches(s: State, s': State, window: int) {
    exists trace, steps :: Way(trace, steps, window) && trace[0] == s && trace[|steps|] == s'
  }

  lemma ReachesSelf(s: State, window: int)
    ensures Reaches(s, s, window)
  {
    assert Way([s], [], window);
  }

  lemma Onward(s: State, m: State, step: Step, s': State, window: int)
    requires Reaches(s, m, window) && Next(m, step, s') && Disciplined(m, step, window)
    ensures Reaches(s, s', window)
  {
    var trace, steps :| Way(trace, steps, window) && trace[0] == s && trace[|steps|] == m;
    var trace', steps' := trace + [s'], steps + [step];
    forall i | 0 <= i < |steps'|
      ensures Next(trace'[i], steps'[i], trace'[i + 1]) && Disciplined(trace'[i], steps'[i], window)
    {
      assert i < |steps| ==> steps'[i] == steps[i] && trace'[i] == trace[i] && trace'[i + 1] == trace[i + 1];
    }
    assert Way(trace', steps', window);
  }

  lemma Joined(s: State, m: State, s': State, window: int)
    requires Reaches(s, m, window) && Reaches(m, s', window)
    ensures Reaches(s, s', window)
  {
    var trace, steps :| Way(trace, steps, window) && trace[0] == m && trace[|steps|] == s';
    Along(s, trace, steps, window, |steps|);
  }

  lemma {:induction false} Along(s: State, trace: seq<State>, steps: seq<Step>, window: int, i: nat)
    requires Way(trace, steps, window) && Reaches(s, trace[0], window) && i <= |steps|
    ensures Reaches(s, trace[i], window)
  {
    if i > 0 {
      Along(s, trace, steps, window, i - 1);
      Onward(s, trace[i - 1], steps[i - 1], trace[i], window);
    }
  }

  lemma TickAlone(s: State, elapsed: nat, window: int)
    ensures Reaches(s, DoTick(s, elapsed), window)
  {
    ReachesSelf(s, window);
    Onward(s, s, ByReap(StTick(elapsed)), DoTick(s, elapsed), window);
  }

  // ----- claimOperation -----

  /** Where a claim transaction leaves the handler that ran it. */
  function Ended(s: State, c: ClaimTx, claimed: bool): State {
    match c.resume
    case None => s
    case Some(p) => With(s, if claimed then PollSet(p.(i := p.i + 1), true) else PollCheck(p, c.op))
  }

  predicate Idles(s: State) {
    s == Quiet(s.db, s.replies)
  }

  function Locking(s: State, c: ClaimTx, phase: ClaimPhase): State {
    With(s, Claiming(c, phase)).(
      rowLocks := map[c.op := 0],
      tenantLocks := if phase.HasRow? || phase.WantRow? then map[] else map[phase.tenant := 0])
  }

  lemma EndClaimAlone(s: State, c: ClaimTx, phase: ClaimPhase, db: Db, claimed: bool)
    requires Idles(s) && !phase.WantRow?
    ensures EndClaim(Locking(s, c, phase).(db := db), 0, c, claimed) == Ended(s.(db := db), c, claimed)
  {
    var s1 := Locking(s, c, phase).(db := db);
    assert Unlock(s1, 0).rowLocks == map[] && Unlock(s1, 0).tenantLocks == map[];
    assert s1.handlers - {0} == map[];
  }

  lemma SelectsAlone(s: State, c: ClaimTx, window: int)
    requires Idles(s) && Selected(s.db, c.op, c.expected) && s.db.rows[c.op].tenant in s.db.limits
    ensures
      var t := s.db.rows[c.op].tenant;
      Reaches(With(s, Claiming(c, WantRow)), Locking(s, c, HasTenant(t, s.db.limits[t])), window)
  {
    var t := s.db.rows[c.op].tenant;
    var s0, s1 := With(s, Claiming(c, WantRow)), Locking(s, c, HasRow(t));
    ReachesSelf(s0, window);
    Onward(s0, s0, ByClaim(StLockRow(0)), s1, window);
    Onward(s0, s1, ByClaim(StLockTenant(0)), Locking(s, c, HasTenant(t, s.db.limits[t])), window);
  }

  lemma RefusedAlone(s: State, c: ClaimTx, window: int)
    requires Idles(s) && WellFormed(s.db) && !ClaimSucceeds(s.db, c.op, c.expected)
    ensures Reaches(With(s, Claiming(c, WantRow)), Ended(s, c, false), window)
  {
    var s0 := With(s, Claiming(c, WantRow));
    if Selected(s.db, c.op, c.expected) {
      var t := s.db.rows[c.op].tenant;
      var s1 := Locking(s, c, HasTenant(t, s.db.limits[t]));
      SelectsAlone(s, c, window);
      EndClaimAlone(s, c, HasTenant(t, s.db.limits[t]), s.db, false);
      Onward(s0, s1, ByClaim(StCount(0)), Ended(s, c, false), window);
    } else {
      ReachesSelf(s0, window);
      assert s0.handlers - {0} == map[] && Unlock(s0, 0) == s0;
      Onward(s0, s0, ByClaim(StLockRow(0)), Ended(s, c, false), window);
    }
  }

  /** Up to the UPDATE of the claim. */
  lemma CountedAlone(s: State, c: ClaimTx, window: int)
    requires Idles(s) && ClaimSucceeds(s.db, c.op, c.expected)
    ensures Reaches(With(s, Claiming(c, WantRow)), Locking(s, c, Written(s.db.rows[c.op].tenant)), window)
  {
    var t := s.db.rows[c.op].tenant;
    var limit, running := s.db.limits[t], RunningCount(s.db.rows, t);
    var s0 := With(s, Claiming(c, WantRow));
    var s1, s2 := Locking(s, c, HasTenant(t, limit)), Locking(s, c, Counted(t, limit, running));
    SelectsAlone(s, c, window);
    Onward(s0, s1, ByClaim(StCount(0)), s2, window);
    Onward(s0, s2, ByClaim(StClaimWrite(0)), Locking(s, c, Written(t)), window);
  }

  lemma GrantedAlone(s: State, c: ClaimTx, window: int)
    requires Idles(s) && ClaimSucceeds(s.db, c.op, c.expected) && c.startedAt + c.seconds >= s.db.now + window
    ensures Reaches(With(s, Claiming(c, WantRow)), Ended(s.(db := Write(s.db, c.op, ClaimUpdate(c))), c, true), window)
  {
    var t, db := s.db.rows[c.op].tenant, Write(s.db, c.op, ClaimUpdate(c));
    var s3 := Locking(s, c, Written(t));
    CountedAlone(s, c, window);
    EndClaimAlone(s, c, Written(t), db, true);
    assert s3.(db := db) == Locking(s, c, Written(t)).(db := db);
    Onward(With(s, Claiming(c, WantRow)), s3, ByClaim(StClaimCommit(0)), Ended(s.(db := db), c, true), window);
  }

  function Claimed(s: State, op: string, worker: string, seconds: int): State {
    s.(db := ClaimDb(s.db, op, None, worker, seconds))
  }

  lemma ClaimedIs(s: State, op: string, worker: string, seconds: int)
    ensures
      Claimed(s, op, worker, seconds)
      == if ClaimSucceeds(s.db, op, None) then s.(db := Write(s.db, op, Claim(worker, s.db.now + seconds))) else s
  {
  }

  function Asking(s: State, op: string, worker: string, seconds: int): ClaimTx {
    ClaimTx(op, None, worker, seconds, s.db.now, None)
  }

  /** The claim route opens its transaction. */
  lemma AskAlone(s: State, op: string, worker: string, seconds: int, window: int)
    requires Idles(s) && 0 < seconds
    ensures Reaches(s, With(s, Claiming(Asking(s, op, worker, seconds), WantRow)), window)
  {
    ReachesSelf(s, window);
    Onward(s, s, ByClaim(StClaimBegin(0, op, worker, seconds)),
           With(s, Claiming(Asking(s, op, worker, seconds), WantRow)), window);
  }

  lemma DecideAlone(s: State, op: string, worker: string, seconds: int, window: int)
    requires Idles(s) && WellFormed(s.db) && 0 < window <= seconds
    ensures
      Reaches(With(s, Claiming(Asking(s, op, worker, seconds), WantRow)), Claimed(s, op, worker, seconds), window)
  {
    var c := Asking(s, op, worker, seconds);
    ClaimedIs(s, op, worker, seconds);
    if ClaimSucceeds(s.db, op, None) {
      GrantedAlone(s, c, window);
    } else {
      RefusedAlone(s, c, window);
    }
  }

  /** claimOperation, as the internal claim route calls it, claiming or not. */
  lemma ClaimAlone(s: State, op: string, worker: string, seconds: int, window: int)
    requires Idles(s) && WellFormed(s.db) && 0 < window <= seconds
    ensures Reaches(s, Claimed(s, op, worker, seconds), window)
  {
    AskAlone(s, op, worker, seconds, window);
    DecideAlone(s, op, worker, seconds, window);
    var asking := With(s, Claiming(Asking(s, op, worker, seconds), WantRow));
    Joined(s, asking, Claimed(s, op, worker, seconds), window);
  }

  // ----- workerPoll -----

  function PollClaim(s: State, p: PollPlace): ClaimTx
    requires p.i < |s.db.stream| && s.db.stream[p.i].Job?
  {
    ClaimTx(s.db.stream[p.i].env.op, Some(p.tenant), p.worker, 45, s.db.now, Some(p))
  }

  /** A message of this tenant that cannot be claimed reaches the status check. */
  lemma UnclaimedAlone(s: State, p: PollPlace, window: int)
    requires Idles(s) && WellFormed(s.db) && p.i < p.end <= |s.db.stream| && ForPrivate(s.db.stream[p.i], p.tenant)
    requires !ClaimSucceeds(s.db, s.db.stream[p.i].env.op, Some(p.tenant))
    ensures Reaches(With(s, PollAt(p)), With(s, PollCheck(p, s.db.stream[p.i].env.op)), window)
  {
    var c := PollClaim(s, p);
    var s0, s1 := With(s, PollAt(p)), With(s, Claiming(c, WantRow));
    ReachesSelf(s0, window);
    Onward(s0, s0, ByPoll(StPollLook(0)), s1, window);
    RefusedAlone(s, c, window);
    Joined(s0, s1, Ended(s, c, false), window);
  }

  lemma NotWantedPassable(db: Db, tenant: string, k: nat)
    requires k < |db.stream| && ForPrivate(db.stream[k], tenant)
    ensures Passable(db, db.stream[k].env.op, tenant) <==> !Wanted(db, tenant, k)
  {
    if db.stream[k].env.op in db.rows {
      ClaimableExactly(db.rows[db.stream[k].env.op].status);
    }
  }

  function Moved(s: State, p: PollPlace): State {
    s.(db := MoveCursor(s.db, p.tenant, p.i, p.i + 1))
  }

  function Passed(s: State, p: PollPlace): State {
    With(Moved(s, p), PollAt(p.(i := p.i + 1)))
  }

  /** A message nobody wants gets its poll to the cursor SET. */
  lemma SkipAlone(s: State, p: PollPlace, window: int)
    requires Idles(s) && WellFormed(s.db) && p.i < p.end <= |s.db.stream| && !Wanted(s.db, p.tenant, p.i)
    ensures Reaches(With(s, PollAt(p)), With(s, PollSet(p.(i := p.i + 1), false)), window)
  {
    var s0, s3 := With(s, PollAt(p)), With(s, PollSet(p.(i := p.i + 1), false));
    if ForPrivate(s.db.stream[p.i], p.tenant) {
      UnclaimedAlone(s, p, window);
      NotWantedPassable(s.db, p.tenant, p.i);
      Onward(s0, With(s, PollCheck(p, s.db.stream[p.i].env.op)), ByPoll(StPollStatus(0)), s3, window);
    } else {
      ReachesSelf(s0, window);
      Onward(s0, s0, ByPoll(StPollLook(0)), s3, window);
    }
  }

  /** One message that is not this tenant's to claim is passed. */
  lemma PassAlone(s: State, p: PollPlace, window: int)
    requires Idles(s) && WellFormed(s.db) && p.i < p.end <= |s.db.stream| && !Wanted(s.db, p.tenant, p.i)
    ensures Reaches(With(s, PollAt(p)), Passed(s, p), window)
  {
    SkipAlone(s, p, window);
    var s1 := With(s, PollSet(p.(i := p.i + 1), false));
    Onward(With(s, PollAt(p)), s1, ByPoll(StPollStore(0, true)), Passed(s, p), window);
  }

  /** At its limit, the tenant's poll ends before the first message it wants. */
  lemma BlockedAlone(s: State, p: PollPlace, window: int)
    requires Idles(s) && WellFormed(s.db) && p.i < p.end <= |s.db.stream| && Wanted(s.db, p.tenant, p.i)
    requires !BelowLimit(s.db, p.tenant)
    ensures Reaches(With(s, PollAt(p)), s, window)
  {
    var s0, s1 := With(s, PollAt(p)), With(s, PollCheck(p, s.db.stream[p.i].env.op));
    UnclaimedAlone(s, p, window);
    NotWantedPassable(s.db, p.tenant, p.i);
    assert s1.handlers - {0} == map[];
    Onward(s0, s1, ByPoll(StPollStatus(0)), s, window);
  }

  /** The message's operation claimed, the cursor not stored yet. */
  function Taken(s: State, p: PollPlace): State
    requires p.i < |s.db.stream| && s.db.stream[p.i].Job?
    requires Hits(s.db, s.db.stream[p.i].env.op, Claim(p.worker, s.db.now + 45))
  {
    s.(db := Write(s.db, s.db.stream[p.i].env.op, Claim(p.worker, s.db.now + 45)))
  }

  function Stored(s: State, tenant: string, cursor: nat): State {
    s.(db := s.db.(cursors := s.db.cursors[tenant := cursor]))
  }

  lemma TakenIs(s: State, p: PollPlace)
    requires p.i < |s.db.stream| && s.db.stream[p.i].Job?
    requires Hits(s.db, s.db.stream[p.i].env.op, Claim(p.worker, s.db.now + 45))
    ensures
      var c := PollClaim(s, p);
      && ClaimUpdate(c) == Claim(p.worker, s.db.now + 45)
      && Ended(s.(db := Write(s.db, c.op, ClaimUpdate(c))), c, true)
          == With(Taken(s, p), PollSet(p.(i := p.i + 1), true))
  {
  }

  /** Below it, the poll claims that message. */
  lemma TakenAlone(s: State, p: PollPlace, window: int)
    requires Idles(s) && WellFormed(s.db) && p.i < p.end <= |s.db.stream| && Wanted(s.db, p.tenant, p.i)
    requires BelowLimit(s.db, p.tenant) && window <= 45
    ensures Reaches(With(s, PollAt(p)), With(Taken(s, p), PollSet(p.(i := p.i + 1), true)), window)
  {
    var c := PollClaim(s, p);
    var s0, s1 := With(s, PollAt(p)), With(s, Claiming(c, WantRow));
    ReachesSelf(s0, window);
    Onward(s0, s0, ByPoll(StPollLook(0)), s1, window);
    TakenIs(s, p);
    GrantedAlone(s, c, window);
    Joined(s0, s1, With(Taken(s, p), PollSet(p.(i := p.i + 1), true)), window);
  }

  /** The last SET of a poll that claimed something stores the cursor just after the message. */
  lemma StoredAlone(from: State, s: State, p: PollPlace, window: int)
    requires Idles(s) && Reaches(from, With(s, PollSet(p, true)), window)
    ensures Reaches(from, Stored(s, p.tenant, p.i), window)
  {
    var s2 := With(s, PollSet(p, true));
    assert s2.handlers - {0} == map[];
    Onward(from, s2, ByPoll(StPollStore(0, true)), Stored(s, p.tenant, p.i), window);
  }

  /** Once a message nobody wants is passed, the rest of the batch decides the scan. */
  lemma ScannedOn(s: State, p: PollPlace)
    requires Idles(s) && WellFormed(s.db) && p.i < p.end <= |s.db.stream| && !Wanted(s.db, p.tenant, p.i)
    ensures Idles(Moved(s, p)) && WellFormed(Moved(s, p).db)
    ensures Scanned(Moved(s, p), p.(i := p.i + 1)) == Scanned(s, p)
  {
    MovedWellFormed(s.db, p.tenant, p.i);
    ScanPasses(s.db, p.tenant, p.worker, p.i, p.end);
    var db1, p1 := Moved(s, p).db, p.(i := p.i + 1);
    assert ScanDb(db1, p1.tenant, p1.worker, p1.i, p1.end) == ScanDb(s.db, p.tenant, p.worker, p.i, p.end);
  }

  lemma MovedWellFormed(db: Db, tenant: string, i: nat)
    requires WellFormed(db)
    ensures
      var db1 := MoveCursor(db, tenant, i, i + 1);
      WellFormed(db1) && db1.stream == db.stream && db1.history.Keys == db1.rows.Keys
  {
  }

  /** The rest of a batch, from message i on. */
  lemma {:induction false} ScanAlone(s: State, p: PollPlace, window: int)
    requires Idles(s) && WellFormed(s.db) && p.i <= p.end <= |s.db.stream| && window <= 45
    ensures Reaches(With(s, PollAt(p)), Scanned(s, p), window)
    decreases p.end - p.i
  {
    if p.i == p.end {
      EmptyAlone(s, p, window);
    } else if !Wanted(s.db, p.tenant, p.i) {
      PassAlone(s, p, window);
      ScanAlone(Moved(s, p), p.(i := p.i + 1), window);
      ScannedOn(s, p);
      Joined(With(s, PollAt(p)), Passed(s, p), Scanned(s, p), window);
    } else {
      StopAlone(s, p, window);
    }
  }

  lemma TakesAlone(s: State, p: PollPlace, window: int)
    requires Idles(s) && WellFormed(s.db) && p.i < p.end <= |s.db.stream| && Wanted(s.db, p.tenant, p.i)
    requires BelowLimit(s.db, p.tenant) && window <= 45
    ensures Reaches(With(s, PollAt(p)), Stored(Taken(s, p), p.tenant, p.i + 1), window)
  {
    TakenAlone(s, p, window);
    assert Idles(Taken(s, p));
    StoredAlone(With(s, PollAt(p)), Taken(s, p), p.(i := p.i + 1), window);
  }

  function Scanned(s: State, p: PollPlace): State
    requires p.i <= p.end <= |s.db.stream| && s.db.history.Keys == s.db.rows.Keys
  {
    s.(db := ScanDb(s.db, p.tenant, p.worker, p.i, p.end))
  }

  lemma StopIs(s: State, p: PollPlace)
    requires WellFormed(s.db) && p.i < p.end <= |s.db.stream| && Wanted(s.db, p.tenant, p.i)
    ensures Scanned(s, p) == if BelowLimit(s.db, p.tenant) then Stored(Taken(s, p), p.tenant, p.i + 1) else s
  {
    assert FirstWanted(s.db, p.tenant, p.i, p.end) == p.i;
  }

  lemma StopAlone(s: State, p: PollPlace, window: int)
    requires Idles(s) && WellFormed(s.db) && p.i < p.end <= |s.db.stream| && Wanted(s.db, p.tenant, p.i) && window <= 45
    ensures Reaches(With(s, PollAt(p)), Scanned(s, p), window)
  {
    StopIs(s, p);
    if BelowLimit(s.db, p.tenant) {
      TakesAlone(s, p, window);
    } else {
      BlockedAlone(s, p, window);
    }
  }

  lemma EmptyAlone(s: State, p: PollPlace, window: int)
    requires Idles(s) && p.i == p.end
    ensures Reaches(With(s, PollAt(p)), s, window)
  {
    var from := With(s, PollAt(p));
    ReachesSelf(from, window);
    assert from.handlers - {0} == map[];
    Onward(from, from, ByPoll(StPollLook(0)), s, window);
  }

  lemma FetchAlone(s: State, tenant: string, worker: string, window: int)
    requires Idles(s) && worker != ""
    ensures
      var c := CursorOf(s.db, tenant);
      var p := PollPlace(tenant, worker, c, BatchEnd(s.db, c));
      Reaches(s, if c >= |s.db.stream| then s else With(s, PollAt(p)), window)
  {
    var c := CursorOf(s.db, tenant);
    var s1 := With(s, PollRead(tenant, worker, c));
    ReachesSelf(s, window);
    Onward(s, s, ByPoll(StPollBegin(0, tenant, worker)), s1, window);
    assert s1.handlers - {0} == map[];
    Onward(s, s1, ByPoll(StPollFetch(0)),
           if c >= |s.db.stream| then s else With(s, PollAt(PollPlace(tenant, worker, c, BatchEnd(s.db, c)))), window);
  }

  /** workerPoll. */
  lemma PollAlone(s: State, tenant: string, worker: string, window: int)
    requires Idles(s) && WellFormed(s.db) && worker != "" && window <= 45
    ensures Reaches(s, s.(db := PollDb(s.db, tenant, worker).0), window)
  {
    var c := CursorOf(s.db, tenant);
    FetchAlone(s, tenant, worker, window);
    if c < |s.db.stream| {
      ScanAlone(s, PollPlace(tenant, worker, c, BatchEnd(s.db, c)), window);
      var p := PollPlace(tenant, worker, c, BatchEnd(s.db, c));
      Joined(s, With(s, PollAt(p)), s.(db := PollDb(s.db, tenant, worker).0), window);
    }
  }

  // ----- create, redrive and the workflows they start -----

  lemma NewKeyAlone(s: State, id: string, tenant: string, key: string, mode: Mode, maxAttempts: int, notBefore: int,
                    window: int)
    requires Idles(s) && tenant in s.db.limits && 1 <= maxAttempts <= 10 && id !in s.db.rows
    requires !KeyTaken(s.db, tenant, key)
    ensures
      var db := Insert(s.db, id, NewRow(tenant, mode, key, maxAttempts));
      var started := RunWorkflow(db, OperationFlow(id), Envelope(id, tenant, mode), notBefore);
      Reaches(s, Quiet(started, s.replies + {(tenant, key, id)}), window)
  {
    var db := Insert(s.db, id, NewRow(tenant, mode, key, maxAttempts));
    var s1 := With(s.(db := db), Inserted(id, tenant, key, notBefore));
    ReachesSelf(s, window);
    Onward(s, s, ByCreate(StInsert(0, id, tenant, key, mode, maxAttempts, notBefore)), s1, window);
    var starting := Starting(OperationFlow(id), Envelope(id, tenant, mode), notBefore, Reply);
    var s2 := With(Quiet(db, s.replies + {(tenant, key, id)}), starting);
    Onward(s, s1, ByCreate(StReadBack(0, id)), s2, window);
    StartAlone(s, s2, window);
  }

  /** A create that finds its key taken inserts nothing and answers with the row that has it. */
  lemma KnownKeyAlone(s: State, id: string, tenant: string, key: string, mode: Mode, maxAttempts: int, notBefore: int,
                      found: string, window: int)
    requires Idles(s) && tenant in s.db.limits && 1 <= maxAttempts <= 10 && id !in s.db.rows
    requires HasKey(s.db, found, tenant, key)
    ensures Reaches(s, Quiet(s.db, s.replies + {(tenant, key, found)}), window)
  {
    var s1 := With(s, Inserted(id, tenant, key, notBefore));
    ReachesSelf(s, window);
    Onward(s, s, ByCreate(StInsert(0, id, tenant, key, mode, maxAttempts, notBefore)), s1, window);
    assert s1.handlers - {0} == map[];
    Onward(s, s1, ByCreate(StReadBack(0, found)), Quiet(s.db, s.replies + {(tenant, key, found)}), window);
  }

  /** create, whatever the request and the key. */
  lemma CreateAlone(s: State, db': Db, id: string, tenant: string, key: string, input: CreateInput, notBefore: int,
                    reply: CreateReply, window: int)
    requires Idles(s) && tenant in s.db.limits && id !in s.db.rows
    requires Created(s.db, db', id, tenant, key, input, notBefore, reply)
    ensures Reaches(s, if reply.Rejected? then s else Quiet(db', s.replies + {(tenant, key, reply.op)}), window)
    ensures reply.Rejected? ==> db' == s.db
  {
    if reply.Rejected? {
      ReachesSelf(s, window);
    } else {
      var mode, max := ModeOf(input.executionMode).value, Attempts(input.maxAttempts);
      if reply.Existing? {
        KnownKeyAlone(s, id, tenant, key, mode, max, notBefore, reply.op, window);
      } else {
        NewKeyAlone(s, id, tenant, key, mode, max, notBefore, window);
      }
    }
  }

  /** A committed transition is followed by its RunWorkflow call. */
  lemma StartAlone(from: State, s: State, window: int)
    requires Reaches(from, s, window) && 0 in s.handlers && s.handlers[0].Starting? && s.handlers[0].after.Reply?
    requires s == With(Quiet(s.db, s.replies), s.handlers[0])
    ensures Reaches(from, Started(s, s.handlers[0]), window)
  {
    assert s.handlers - {0} == map[];
    Onward(from, s, ByCreate(StStart(0)), Started(s, s.handlers[0]), window);
  }

  /** redrive under a fresh uuid; one that matches no row changes nothing. */
  lemma RedriveAlone(s: State, op: string, tenant: string, nonce: string, window: int)
    requires Idles(s) && RedriveFlow(op, nonce) !in s.db.flows
    ensures Reaches(s, s.(db := RedriveDb(s.db, op, tenant, nonce)), window)
  {
    ReachesSelf(s, window);
    if OfTenantNow(s.db, op, tenant) && Matches(s.db.rows[op], Redrive) {
      var starting := Starting(RedriveFlow(op, nonce), EnvelopeOf(op, s.db.rows[op]), s.db.now, Reply);
      var s1 := With(s.(db := Write(s.db, op, Redrive)), starting);
      Onward(s, s, ByOwner(StRedrive(0, op, tenant, nonce)), s1, window);
      StartAlone(s, s1, window);
    }
  }

  lemma CancelAlone(s: State, op: string, tenant: string, window: int)
    requires Idles(s)
    ensures Reaches(s, s.(db := CancelDb(s.db, op, tenant).0), window)
  {
    ReachesSelf(s, window);
    if OfTenantNow(s.db, op, tenant) && !IsTerminal(s.db.rows[op].status) {
      Onward(s, s, ByOwner(StCancel(op, tenant)), s.(db := CancelDb(s.db, op, tenant).0), window);
    }
  }

  lemma HeartbeatAlone(s: State, op: string, route: Option<string>, worker: string, window: int)
    requires Idles(s)
    ensures Reaches(s, s.(db := HeartbeatDb(s.db, op, route, worker)), window)
  {
    ReachesSelf(s, window);
    if Owned(s.db, op, route, worker) {
      Onward(s, s, ByOwner(StHeartbeat(op, route, worker)), s.(db := HeartbeatDb(s.db, op, route, worker)), window);
    }
  }

  /** A due workflow runs its step to the end. */
  lemma FlowAlone(s: State, f: FlowId, window: int)
    requires Idles(s) && CanFlowUpdate(s, f)
    ensures Reaches(s, s.(db := SetPhase(RunStepDb(s.db, s.db.flows[f].env, Finishes), f, Done)), window)
  {
    var env := s.db.flows[f].env;
    ReachesSelf(s, window);
    if Hits(s.db, env.op, Enqueue) {
      var db := Write(s.db, env.op, Enqueue);
      Onward(s, s, ByFlow(StFlowUpdate(f)), s.(db := SetPhase(db, f, Logging)), window);
      PublishAlone(s, s.(db := db), f, window);
    } else {
      RecheckAlone(s, f, window);
    }
  }

  /** The UPDATE matched nothing, so the step looks whether an earlier run of it has queued the row. */
  lemma RecheckAlone(s: State, f: FlowId, window: int)
    requires Idles(s) && CanFlowUpdate(s, f) && !Hits(s.db, s.db.flows[f].env.op, Enqueue)
    ensures Reaches(s, s.(db := SetPhase(PublishDb(s.db, s.db.flows[f].env), f, Done)), window)
  {
    var s1 := s.(db := SetPhase(s.db, f, Checking(s.db.flows[f].phase.owes)));
    ReachesSelf(s, window);
    Onward(s, s, ByFlow(StFlowUpdate(f)), s1, window);
    if s.db.rows[s.db.flows[f].env.op].status == Queued {
      SetPhaseTwice(s.db, f, s1.db.flows[f].phase, Logging);
      Onward(s, s1, ByFlow(StFlowCheck(f)), s.(db := SetPhase(s.db, f, Logging)), window);
      PublishAlone(s, s, f, window);
    } else {
      SetPhaseTwice(s.db, f, s1.db.flows[f].phase, Returning);
      Onward(s, s1, ByFlow(StFlowCheck(f)), s.(db := SetPhase(s.db, f, Returning)), window);
      FinishAlone(s, s, f, window);
    }
  }

  lemma SetPhaseTwice(db: Db, f: FlowId, p: Phase, q: Phase)
    requires f in db.flows
    ensures SetPhase(SetPhase(db, f, p), f, q) == SetPhase(db, f, q)
  {
    var flow := db.flows[f];
    assert db.flows[f := flow.(phase := p)][f := flow.(phase := q)] == db.flows[f := flow.(phase := q)];
  }

  lemma FinishAlone(from: State, s: State, f: FlowId, window: int)
    requires InPhase(s, f) && Reaches(from, s.(db := SetPhase(s.db, f, Returning)), window)
    ensures Reaches(from, s.(db := SetPhase(s.db, f, Done)), window)
  {
    SetPhaseTwice(s.db, f, Returning, Done);
    var s1 := s.(db := SetPhase(s.db, f, Returning));
    Onward(from, s1, ByFlow(StFlowFinish(f)), s.(db := SetPhase(s.db, f, Done)), window);
  }

  lemma PublishAlone(from: State, s: State, f: FlowId, window: int)
    requires Idles(s) && InPhase(s, f) && Reaches(from, s.(db := SetPhase(s.db, f, Logging)), window)
    requires s.db.rows[s.db.flows[f].env.op].status == Queued
    ensures Reaches(from, s.(db := SetPhase(PublishDb(s.db, s.db.flows[f].env), f, Done)), window)
  {
    var s1, s2 := s.(db := SetPhase(s.db, f, Logging)), s.(db := SetPhase(s.db, f, Publishing));
    assert SetPhase(s1.db, f, Publishing) == s2.db;
    Onward(from, s1, ByFlow(StFlowLog(f)), s2, window);
    var sent := s.(db := PublishDb(s.db, s.db.flows[f].env));
    var s3 := s.(db := SetPhase(sent.db, f, Returning));
    assert SetPhase(s2.db.(stream := s2.db.stream + [Job(s2.db.flows[f].env)]), f, Returning) == s3.db;
    Onward(from, s2, ByFlow(StFlowPublish(f)), s3, window);
    FinishAlone(from, sent, f, window);
  }

  // ----- the workflow, with crashes -----

  /** The workflow, back at the start of its step, over the tables `db`. */
  ghost predicate Restarted(s: State, s': State, f: FlowId, db: Db)
    requires f in db.flows
  {
    exists owes :: s' == s.(db := SetPhase(db, f, Waiting(owes)))
  }

  /** One run of the step that dies on the way. */
  lemma CrashAlone(from: State, s: State, f: FlowId, reach: Reach, window: int) returns (s': State)
    requires Idles(s) && CanFlowUpdate(s, f) && Reaches(from, s, window) && !reach.Finishes?
    ensures Reaches(from, s', window) && Restarted(s, s', f, RunStepDb(s.db, s.db.flows[f].env, reach))
  {
    if reach.DiesAtStart? {
      s' := s;
      var owes := s.db.flows[f].phase.owes;
      assert s.db.flows[f := s.db.flows[f].(phase := Waiting(owes))] == s.db.flows;
      assert s' == s.(db := SetPhase(s.db, f, Waiting(owes)));
    } else {
      var m, p := UpdatedAlone(from, s, f, window);
      if p.Returning? || reach.DiesAfterUpdate? {
        s' := DiesAlone(from, s, m, f, UpdateDb(s.db, s.db.flows[f].env.op), p, window);
      } else {
        s' := DiesLaterAlone(from, s, m, f, reach, window);
      }
    }
  }

  /** The UPDATE, and the status check if it matched nothing. */
  lemma UpdatedAlone(from: State, s: State, f: FlowId, window: int) returns (m: State, p: Phase)
    requires Idles(s) && CanFlowUpdate(s, f) && Reaches(from, s, window)
    ensures Reaches(from, m, window)
    ensures
      var o, db := s.db.flows[f].env.op, UpdateDb(s.db, s.db.flows[f].env.op);
      && m == s.(db := SetPhase(db, f, p)) && o in db.rows
      && p == (if db.rows[o].status == Queued then Logging else Returning)
  {
    var o := s.db.flows[f].env.op;
    if Hits(s.db, o, Enqueue) {
      p, m := Logging, DoFlowUpdate(s, f);
      Onward(from, s, ByFlow(StFlowUpdate(f)), m, window);
    } else {
      var s1 := s.(db := SetPhase(s.db, f, Checking(s.db.flows[f].phase.owes)));
      Onward(from, s, ByFlow(StFlowUpdate(f)), s1, window);
      p := if s.db.rows[o].status == Queued then Logging else Returning;
      m := s.(db := SetPhase(s.db, f, p));
      SetPhaseTwice(s.db, f, s1.db.flows[f].phase, p);
      Onward(from, s1, ByFlow(StFlowCheck(f)), m, window);
    }
  }

  /** A crash in phase `p` of the step. */
  lemma DiesAlone(from: State, s: State, m: State, f: FlowId, db: Db, p: Phase, window: int) returns (s': State)
    requires Reaches(from, m, window) && f in db.flows && m == s.(db := SetPhase(db, f, p)) && InPhase(m, f) && !p.Done?
    ensures Reaches(from, s', window) && Restarted(s, s', f, db)
  {
    s' := DoFlowCrash(m, f);
    Onward(from, m, ByFlow(StFlowCrash(f)), s', window);
    SetPhaseTwice(db, f, p, Waiting(Owes(p)));
    assert s' == s.(db := SetPhase(db, f, Waiting(Owes(p))));
  }

  /** A crash after the log entry or after the message. */
  lemma DiesLaterAlone(from: State, s: State, m: State, f: FlowId, reach: Reach, window: int) returns (s': State)
    requires Idles(s) && CanFlowUpdate(s, f) && Reaches(from, m, window)
    requires (reach.DiesAfterLog? || reach.DiesAfterPublish?)
    requires
      var o, db := s.db.flows[f].env.op, UpdateDb(s.db, s.db.flows[f].env.op);
      o in db.rows && o in db.history && db.rows[o].status == Queued && m == s.(db := SetPhase(db, f, Logging))
    ensures Reaches(from, s', window) && Restarted(s, s', f, RunStepDb(s.db, s.db.flows[f].env, reach))
  {
    var env := s.db.flows[f].env;
    var db := UpdateDb(s.db, env.op);
    var s1 := s.(db := SetPhase(db, f, Publishing));
    SetPhaseTwice(db, f, Logging, Publishing);
    Onward(from, m, ByFlow(StFlowLog(f)), s1, window);
    if reach.DiesAfterLog? {
      s' := DiesAlone(from, s, s1, f, db, Publishing, window);
    } else {
      s' := DiesPublishedAlone(from, s, f, db, window);
    }
  }

  lemma DiesPublishedAlone(from: State, s: State, f: FlowId, db: Db, window: int) returns (s': State)
    requires f in db.flows && db.flows[f].env.op in db.rows && db.flows[f].env.op in db.history
    requires db.rows[db.flows[f].env.op].status == Queued
    requires Reaches(from, s.(db := SetPhase(db, f, Publishing)), window)
    ensures Reaches(from, s', window) && Restarted(s, s', f, PublishDb(db, db.flows[f].env))
  {
    var sent := PublishDb(db, db.flows[f].env);
    var s2 := s.(db := SetPhase(sent, f, Returning));
    PublishSetsPhase(db, f);
    Onward(from, s.(db := SetPhase(db, f, Publishing)), ByFlow(StFlowPublish(f)), s2, window);
    s' := DiesAlone(from, s, s2, f, sent, Returning, window);
  }

  lemma PublishSetsPhase(db: Db, f: FlowId)
    requires f in db.flows && db.flows[f].env.op in db.rows && db.rows[db.flows[f].env.op].status == Queued
    ensures
      var s1 := SetPhase(db, f, Publishing);
      SetPhase(s1.(stream := s1.stream + [Job(s1.flows[f].env)]), f, Returning)
          == SetPhase(PublishDb(db, db.flows[f].env), f, Returning)
  {
    SetPhaseTwice(db, f, Publishing, Returning);
  }

  /** The durable workflow: whatever its crashes, it is through at last, and the tables are as the code leaves them. */
  lemma {:induction false} CrashesAlone(from: State, s: State, f: FlowId, crashes: seq<Reach>, window: int)
    requires Idles(s) && CanFlowUpdate(s, f) && Reaches(from, s, window) && Finishes !in crashes
    ensures f in EnqueueDb(s.db, s.db.flows[f].env, crashes).flows
    ensures Reaches(from, s.(db := SetPhase(EnqueueDb(s.db, s.db.flows[f].env, crashes), f, Done)), window)
    decreases |crashes|
  {
    var env := s.db.flows[f].env;
    if crashes == [] {
      FlowAlone(s, f, window);
      Joined(from, s, s.(db := SetPhase(RunStepDb(s.db, env, Finishes), f, Done)), window);
    } else {
      var s1 := CrashAlone(from, s, f, crashes[0], window);
      RunsOn(s, s1, f, crashes);
      CrashesAlone(from, s1, f, crashes[1..], window);
    }
  }

  /** After a crash the workflow is due again, and what is left of it comes to the same. */
  lemma RunsOn(s: State, s1: State, f: FlowId, crashes: seq<Reach>)
    requires Idles(s) && CanFlowUpdate(s, f) && crashes != []
    requires f in RunStepDb(s.db, s.db.flows[f].env, crashes[0]).flows
    requires Restarted(s, s1, f, RunStepDb(s.db, s.db.flows[f].env, crashes[0]))
    ensures Idles(s1) && CanFlowUpdate(s1, f) && s1.db.flows[f].env == s.db.flows[f].env
    ensures
      var env := s.db.flows[f].env;
      && f in EnqueueDb(s.db, env, crashes).flows && f in EnqueueDb(s1.db, env, crashes[1..]).flows
      && s1.(db := SetPhase(EnqueueDb(s1.db, env, crashes[1..]), f, Done))
          == s.(db := SetPhase(EnqueueDb(s.db, env, crashes), f, Done))
  {
    var env := s.db.flows[f].env;
    var db1 := RunStepDb(s.db, env, crashes[0]);
    var owes :| s1 == s.(db := SetPhase(db1, f, Waiting(owes)));
    StillDue(s, f, crashes[0], owes);
    EnqueueIgnoresPhase(db1, env, crashes[1..], f, Waiting(owes));
    SetPhaseTwice(EnqueueDb(db1, env, crashes[1..]), f, Waiting(owes), Done);
  }

  lemma StillDue(s: State, f: FlowId, reach: Reach, owes: bool)
    requires Idles(s) && CanFlowUpdate(s, f)
    ensures f in RunStepDb(s.db, s.db.flows[f].env, reach).flows
    ensures
      var s1 := s.(db := SetPhase(RunStepDb(s.db, s.db.flows[f].env, reach), f, Waiting(owes)));
      Idles(s1) && CanFlowUpdate(s1, f) && s1.db.flows[f].env == s.db.flows[f].env
  {
    match reach
    case DiesAtStart =>
    case DiesAfterUpdate =>
    case DiesAfterLog =>
    case DiesAfterPublish =>
    case Finishes =>
  }

  /** The step does not look at where its workflow stands. */
  lemma {:induction false} EnqueueIgnoresPhase(db: Db, env: Envelope, crashes: seq<Reach>, f: FlowId, p: Phase)
    requires f in db.flows
    ensures f in EnqueueDb(db, env, crashes).flows
    ensures EnqueueDb(SetPhase(db, f, p), env, crashes) == SetPhase(EnqueueDb(db, env, crashes), f, p)
    decreases |crashes|
  {
    if crashes == [] {
      StepIgnoresPhase(db, env, Finishes, f, p);
    } else {
      StepIgnoresPhase(db, env, crashes[0], f, p);
      EnqueueIgnoresPhase(RunStepDb(db, env, crashes[0]), env, crashes[1..], f, p);
    }
  }

  lemma StepIgnoresPhase(db: Db, env: Envelope, reach: Reach, f: FlowId, p: Phase)
    requires f in db.flows
    ensures RunStepDb(db, env, reach).flows == db.flows
    ensures RunStepDb(SetPhase(db, f, p), env, reach) == SetPhase(RunStepDb(db, env, reach), f, p)
  {
    UpdateIgnoresPhase(db, env.op, f, p);
    PublishIgnoresPhase(UpdateDb(db, env.op), env, f, p);
    match reach
    case DiesAtStart =>
    case DiesAfterUpdate =>
    case DiesAfterLog =>
    case DiesAfterPublish =>
    case Finishes =>
  }

  lemma UpdateIgnoresPhase(db: Db, o: string, f: FlowId, p: Phase)
    requires f in db.flows
    ensures UpdateDb(db, o).flows == db.flows && UpdateDb(SetPhase(db, f, p), o) == SetPhase(UpdateDb(db, o), f, p)
  {
  }

  lemma PublishIgnoresPhase(db: Db, env: Envelope, f: FlowId, p: Phase)
    requires f in db.flows
    ensures PublishDb(db, env).flows == db.flows
    ensures PublishDb(SetPhase(db, f, p), env) == SetPhase(PublishDb(db, env), f, p)
  {
  }

  // ----- workerFail, workerComplete, reapExpiredLeaseBatch -----

  function Report(s: State, op: string, route: Option<string>, worker: string, retryable: bool): Handler
    requires op in s.db.rows
  {
    var r := s.db.rows[op];
    Failing(op, route, worker, retryable, EnvelopeOf(op, r), r.attempt, r.maxAttempts)
  }

  /** After its UPDATE a report ends, or goes on to start the retry workflow. */
  predicate Reported(s: State, s2: State, op: string, route: Option<string>, worker: string, retryable: bool)
    requires op in s.db.rows
  {
    var r := s.db.rows[op];
    if FailTarget(retryable, r.attempt, r.maxAttempts) == DeadLettered then
      s2 == s.(db := FailDb(s.db, op, route, worker, retryable))
    else
      && 0 in s2.handlers && s2 == With(Quiet(s2.db, s.replies), s2.handlers[0])
      && s2.handlers[0] == Starting(RetryFlow(op, r.attempt), EnvelopeOf(op, r), s.db.now + Delay(r.attempt), Reply)
      && s.(db := FailDb(s.db, op, route, worker, retryable)) == Started(s2, s2.handlers[0])
  }

  function Started(s: State, x: Handler): State
    requires x.Starting?
  {
    Quiet(RunWorkflow(s.db, x.flow, x.env, x.notBefore), s.replies)
  }

  lemma WriteAlone(s: State, op: string, route: Option<string>, worker: string, retryable: bool)
    requires Idles(s) && Owned(s.db, op, route, worker)
    ensures
      var s1 := With(s, Report(s, op, route, worker, retryable));
      CanFailWrite(s1, 0) && Reported(s, DoFailWrite(s1, 0), op, route, worker, retryable)
  {
    var s1 := With(s, Report(s, op, route, worker, retryable));
    var r, x := s.db.rows[op], s1.handlers[0];
    var u := Fail(worker, FailTarget(retryable, r.attempt, r.maxAttempts));
    assert FailUpdate(x) == u && FailHits(s1, x);
    var db := WrittenAlone(s, op, route, worker, u);
    assert s1.handlers - {0} == map[];
    assert u.to == DeadLettered ==> DoFailWrite(s1, 0) == s.(db := db);
  }

  /** The tables after the report's UPDATE and event, and what its workflow adds to them. */
  lemma WrittenAlone(s: State, op: string, route: Option<string>, worker: string, u: Update) returns (db: Db)
    requires Owned(s.db, op, route, worker) && u.Fail? && Hits(s.db, op, u)
    ensures
      var r, db1 := s.db.rows[op], Write(s.db, op, u);
      && db == (if route.None? then db1 else InsertEvent(db1, EventKey(op, FailKind(u.to), r.attempt), route.value))
      && db.now == s.db.now
      && FollowUpDb(db1, op, r, u.to, route)
          == if u.to != Retrying then db
             else RunWorkflow(db, RetryFlow(op, r.attempt), EnvelopeOf(op, r), s.db.now + Delay(r.attempt))
  {
    var r, db1 := s.db.rows[op], Write(s.db, op, u);
    db := if route.None? then db1 else InsertEvent(db1, EventKey(op, FailKind(u.to), r.attempt), route.value);
  }

  lemma ReportAlone(s: State, op: string, route: Option<string>, worker: string, retryable: bool, window: int)
    returns (s2: State)
    requires Idles(s) && Owned(s.db, op, route, worker)
    ensures Reaches(s, s2, window) && Reported(s, s2, op, route, worker, retryable)
  {
    var s1 := With(s, Report(s, op, route, worker, retryable));
    WriteAlone(s, op, route, worker, retryable);
    s2 := DoFailWrite(s1, 0);
    ReachesSelf(s, window);
    Onward(s, s, ByOwner(StFailRead(0, op, route, worker, retryable)), s1, window);
    Onward(s, s1, ByOwner(StFailWrite(0)), s2, window);
  }

  /** workerFail and fail, from the holder of the lease or anyone else. */
  lemma FailAlone(s: State, op: string, route: Option<string>, worker: string, retryable: bool, window: int)
    requires Idles(s)
    ensures Reaches(s, s.(db := FailDb(s.db, op, route, worker, retryable)), window)
  {
    if Owned(s.db, op, route, worker) {
      HolderFailsAlone(s, op, route, worker, retryable, window);
    } else {
      ReachesSelf(s, window);
    }
  }

  lemma HolderFailsAlone(s: State, op: string, route: Option<string>, worker: string, retryable: bool, window: int)
    requires Idles(s) && Owned(s.db, op, route, worker)
    ensures Reaches(s, s.(db := FailDb(s.db, op, route, worker, retryable)), window)
  {
    var s2 := ReportAlone(s, op, route, worker, retryable, window);
    if s2 != s.(db := FailDb(s.db, op, route, worker, retryable)) {
      StartAlone(s, s2, window);
    }
  }

  /** workerComplete and complete, from the holder of the lease or anyone else. */
  lemma CompleteAlone(s: State, op: string, route: Option<string>, worker: string, window: int)
    requires Idles(s)
    ensures Reaches(s, s.(db := CompleteDb(s.db, op, route, worker)), window)
  {
    ReachesSelf(s, window);
    if Owned(s.db, op, route, worker) {
      Onward(s, s, ByOwner(StComplete(op, route, worker)), s.(db := CompleteDb(s.db, op, route, worker)), window);
    }
  }

  /** One row of a reaper's batch. */
  lemma ReapOneAlone(s: State, items: seq<Seen>, window: int)
    requires Idles(s) && items != [] && window >= 0
    ensures
      var goal := With(s.(db := ReapOneDb(s.db, items[0])), Reaping(items[1..], s.db.now));
      Reaches(With(s, Reaping(items, s.db.now)), goal, window)
  {
    var s0 := With(s, Reaping(items, s.db.now));
    var s1, goal := DoReapWrite(s0, 0), With(s.(db := ReapOneDb(s.db, items[0])), Reaping(items[1..], s.db.now));
    ReachesSelf(s0, window);
    Onward(s0, s0, ByReap(StReapWrite(0)), s1, window);
    ReapGoesOn(s, items);
    if s1 != goal {
      Onward(s0, s1, ByCreate(StStart(0)), goal, window);
    }
  }

  /** The reaper is through with the row, or has the recovery workflow to start first. */
  lemma ReapGoesOn(s: State, items: seq<Seen>)
    requires Idles(s) && items != []
    ensures
      var s1 := DoReapWrite(With(s, Reaping(items, s.db.now)), 0);
      var goal := With(s.(db := ReapOneDb(s.db, items[0])), Reaping(items[1..], s.db.now));
      s1 == goal || CreateNext(s1, StStart(0), goal)
  {
  }

  lemma {:induction false} ReapRestAlone(s: State, items: seq<Seen>, k: nat, window: int)
    requires Idles(s) && k <= |items| && window >= 0
    ensures
      var db := ReapDb(s.db, items[..k]);
      && db.now == s.db.now
      && Reaches(With(s, Reaping(items, s.db.now)), With(s.(db := db), Reaping(items[k..], s.db.now)), window)
  {
    var s0 := With(s, Reaping(items, s.db.now));
    if k == 0 {
      ReachesSelf(s0, window);
      assert items[0..] == items && items[..0] == [];
    } else {
      ReapRestAlone(s, items, k - 1, window);
      assert items[..k][..k - 1] == items[..k - 1] && items[k - 1..][1..] == items[k..];
      var s1 := s.(db := ReapDb(s.db, items[..k - 1]));
      ReapOneAlone(s1, items[k - 1..], window);
      Joined(s0, With(s1, Reaping(items[k - 1..], s.db.now)),
             With(s.(db := ReapDb(s.db, items[..k])), Reaping(items[k..], s.db.now)), window);
    }
  }

  lemma ReapAlone(s: State, items: seq<Seen>, window: int)
    requires Idles(s) && ReapBatch(s.db, items) && window >= 0
    ensures Reaches(s, s.(db := ReapDb(s.db, items)), window)
  {
    var s1 := With(s, Reaping(items, s.db.now));
    ReachesSelf(s, window);
    Onward(s, s, ByReap(StReapSelect(0, items)), s1, window);
    ReapRestAlone(s, items, |items|, window);
    assert items[..|items|] == items;
    var done := s.(db := ReapDb(s.db, items));
    Joined(s, s1, With(done, Reaping(items[|items|..], s.db.now)), window);
    ReapEnds(s, done, items[|items|..], s.db.now, window);
  }

  lemma ReapEnds(from: State, s: State, items: seq<Seen>, at: int, window: int)
    requires Idles(s) && Reaches(from, With(s, Reaping(items, at)), window)
    ensures Reaches(from, s, window)
  {
    var s2 := With(s, Reaping(items, at));
    assert Unlock(s2, 0) == s2 && s2.handlers - {0} == map[];
    Onward(from, s2, ByReap(StAbort(0)), s, window);
  }
}
