/**
 Both machines together: an event the operations service records in a transition's transaction is at that
 moment a new row of the outbox the accounting pipeline works on. What an operation is charged is then
 bounded by its attempt budget, through every retry, lease recovery, redrive, lost reply and repeated request.
 */
module World {
  import opened Domain
  import opened Rows
  import opened Tables
  import opened Effects
  import opened Keys
  import U = Usage
  import A = Accounting
  import L = Ledger
  import P = Protocol
  import Addressing
  import B = Budget
  import C = Charges

  datatype State = State(p: P.State, a: A.State)

  datatype Step = Operations(p: P.Step) | Accounts(a: A.Step)

  ghost predicate IsInit(s: State) {
    P.IsInit(s.p) && A.IsInit(s.a)
  }

  /** The outbox row of an event. */
  function RowEvent(k: EventKey, e: Event): U.OperationEvent {
    U.OperationEvent(RenderEvent(k), KindName(k.kind), k.op, e.tenant, e.units)
  }

  /** ON CONFLICT(event_key) DO NOTHING, on the key as a string. */
  function AddIfNew(a: A.State, e: U.OperationEvent): A.State {
    if U.InOutbox(a.outbox, e.key) then a else A.DoAddEvent(a, e)
  }

  /** Operation ids are uuids; new ones contain no colon. */
  predicate PlainIds(x: P.Step) {
    x.ByCreate? && x.create.StInsert? ==> Plain(x.create.id)
  }

  ghost predicate Next(s: State, step: Step, s': State, window: int) {
    match step
    case Operations(x) =>
      && P.Next(s.p, x, s'.p) && B.Disciplined(s.p, x, window) && PlainIds(x)
      && s'.a == (match EmitOf(s.p, x)
                  case None => s.a
                  case Some(m) => AddIfNew(s.a, RowEvent(m.key, Event(m.tenant, 1))))
    case Accounts(x) =>
      s'.p == s.p && A.Next(s.a, x, s'.a) && !(x.ByEvent? && x.event.StAddEvent?)
  }

  ghost predicate Run(trace: seq<State>, steps: seq<Step>, window: int) {
    && |trace| == |steps| + 1
    && IsInit(trace[0]) && 0 < window <= 30
    && (forall i :: 0 <= i < |steps| ==> Next(trace[i], steps[i], trace[i + 1], window))
  }

  // ----- The outbox mirrors the recorded events -----

  ghost predicate HasEvent(db: Db, e: U.OperationEvent) {
    exists k :: k in db.events && e == RowEvent(k, db.events[k])
  }

  ghost predicate Mirrors(db: Db, outbox: seq<U.OutboxRow>) {
    && (forall i :: 0 <= i < |outbox| ==> HasEvent(db, outbox[i].event))
    && (forall k :: k in db.events ==> L.InRow(outbox, RowEvent(k, db.events[k])))
  }

  ghost predicate PlainRows(db: Db) {
    (forall o :: o in db.rows ==> Plain(o)) && (forall k :: k in db.events ==> k.op in db.rows)
  }

  ghost predicate Sound(s: State, window: int) {
    && B.Budgeted(s.p, window) && Addressing.AllAddressed(s.p) && C.EventsPlaced(s.p.db)
    && L.Sound(s.a) && Mirrors(s.p.db, s.a.outbox) && PlainRows(s.p.db)
  }

  lemma RowsStayPlain(s: P.State, x: P.Step, s': P.State)
    requires P.Next(s, x, s') && PlainIds(x) && PlainRows(s.db) && C.EventsPlaced(s'.db)
    ensures PlainRows(s'.db)
  {
    StepEffects(s, x, s');
    forall o | o in s'.db.rows && o !in s.db.rows
      ensures Plain(o)
    {
      AddedId(s, x, s', o);
    }
    forall k | k in s'.db.events
      ensures k.op in s'.db.rows
    {
      assert C.KeyPlaced(s'.db, k);
    }
  }

  lemma AddedId(s: P.State, x: P.Step, s': P.State, o: string)
    requires P.Next(s, x, s') && o in s'.db.rows && o !in s.db.rows
    ensures x.ByCreate? && x.create.StInsert? && o == x.create.id
  {
    StepEffects(s, x, s');
  }

  /** The string key is in the outbox exactly when the event was recorded before. */
  lemma SameConflicts(db: Db, outbox: seq<U.OutboxRow>, k: EventKey)
    requires Mirrors(db, outbox) && PlainRows(db) && k.op in db.rows
    ensures U.InOutbox(outbox, RenderEvent(k)) <==> k in db.events
  {
    if k in db.events {
      assert L.InRow(outbox, RowEvent(k, db.events[k]));
      var i :| 0 <= i < |outbox| && outbox[i].event == RowEvent(k, db.events[k]);
      assert outbox[i].event.key == RenderEvent(k);
    }
    if U.InOutbox(outbox, RenderEvent(k)) {
      var i :| 0 <= i < |outbox| && outbox[i].event.key == RenderEvent(k);
      assert HasEvent(db, outbox[i].event);
      var j :| j in db.events && outbox[i].event == RowEvent(j, db.events[j]);
      EventKeysDistinct(j, k);
    }
  }

  lemma MirrorsStay(db: Db, outbox: seq<U.OutboxRow>, outbox': seq<U.OutboxRow>)
    requires Mirrors(db, outbox) && |outbox'| == |outbox| && L.SameEvents(outbox, outbox')
    ensures Mirrors(db, outbox')
  {
    forall i | 0 <= i < |outbox'|
      ensures HasEvent(db, outbox'[i].event)
    {
      assert outbox'[i].event == outbox[i].event;
    }
    forall k | k in db.events
      ensures L.InRow(outbox', RowEvent(k, db.events[k]))
    {
      L.InRowStays(outbox, outbox', RowEvent(k, db.events[k]));
    }
  }

  lemma MirrorsAdd(db: Db, outbox: seq<U.OutboxRow>, events': map<EventKey, Event>, row: U.OutboxRow, k: EventKey)
    requires Mirrors(db, outbox) && k !in db.events && k in events' && events' == db.events[k := events'[k]]
    requires row.event == RowEvent(k, events'[k])
    ensures Mirrors(db.(events := events'), outbox + [row])
  {
    var db' := db.(events := events');
    forall i | 0 <= i < |outbox + [row]|
      ensures HasEvent(db', (outbox + [row])[i].event)
    {
      if i < |outbox| {
        assert HasEvent(db, outbox[i].event);
        var j :| j in db.events && outbox[i].event == RowEvent(j, db.events[j]);
        assert j in db'.events && db'.events[j] == db.events[j];
      } else {
        assert k in db'.events;
      }
    }
    forall j | j in db'.events
      ensures L.InRow(outbox + [row], RowEvent(j, db'.events[j]))
    {
      if j == k {
        assert (outbox + [row])[|outbox|].event == RowEvent(k, db'.events[k]);
      } else {
        assert L.InRow(outbox, RowEvent(j, db.events[j]));
        var i :| 0 <= i < |outbox| && outbox[i].event == RowEvent(j, db.events[j]);
        assert (outbox + [row])[i].event == RowEvent(j, db.events[j]);
      }
    }
  }

  lemma MirrorsOnEvents(db: Db, db': Db, outbox: seq<U.OutboxRow>)
    requires Mirrors(db, outbox) && db'.events == db.events
    ensures Mirrors(db', outbox)
  {
    forall i | 0 <= i < |outbox|
      ensures HasEvent(db', outbox[i].event)
    {
      assert HasEvent(db, outbox[i].event);
      var j :| j in db.events && outbox[i].event == RowEvent(j, db.events[j]);
      assert j in db'.events;
    }
  }

  /** A recorded event and the outbox row it becomes. */
  lemma EmitMirrors(s: State, x: P.Step, s': State, window: int)
    requires Sound(s, window) && Next(s, Operations(x), s', window) && EmitOf(s.p, x).Some?
    ensures Mirrors(s'.p.db, s'.a.outbox) && L.Sound(s'.a)
  {
    StepEvents(s.p, x, s'.p);
    var m := EmitOf(s.p, x).value;
    C.EmitCloses(s.p, x, s'.p, window);
    SameConflicts(s.p.db, s.a.outbox, m.key);
    if m.key in s.p.db.events {
      MirrorsOnEvents(s.p.db, s'.p.db, s.a.outbox);
    } else {
      var e := RowEvent(m.key, Event(m.tenant, 1));
      L.StepSound(s.a, A.ByEvent(A.StAddEvent(e)), s'.a);
      MirrorsAdd(s.p.db, s.a.outbox, s'.p.db.events, U.OutboxRow(e, false, 0, s.a.now), m.key);
      MirrorsOnEvents(s.p.db.(events := s'.p.db.events), s'.p.db, s'.a.outbox);
    }
  }

  lemma AccountsMirror(s: State, x: A.Step, s': State, window: int)
    requires Sound(s, window) && Next(s, Accounts(x), s', window)
    ensures Mirrors(s'.p.db, s'.a.outbox) && L.Sound(s'.a)
  {
    L.StepSound(s.a, x, s'.a);
    L.StepGrows(s.a, x, s'.a);
    SameRowCount(s.a, x, s'.a);
    MirrorsStay(s.p.db, s.a.outbox, s'.a.outbox);
  }

  lemma SameRowCount(a: A.State, x: A.Step, a': A.State)
    requires A.Next(a, x, a') && !(x.ByEvent? && x.event.StAddEvent?)
    ensures |a'.outbox| == |a.outbox|
  {
    match x
    case ByHook(y) => L.HookGrows(a, y, a');
    case ByEvent(y) =>
      match y
      case StSelect(_, _) =>
      case StPost(_, _) =>
      case StReply(_, _) =>
      case StSave(_, _) =>
      case StQuit(_) =>
      case StReceive(_) =>
      case StAddEvent(_) =>
  }

  lemma OperationsSound(s: P.State, x: P.Step, s': P.State, window: int)
    requires B.Budgeted(s, window) && Addressing.AllAddressed(s) && C.EventsPlaced(s.db) && window <= 30
    requires P.Next(s, x, s') && B.Disciplined(s, x, window)
    ensures B.Budgeted(s', window) && Addressing.AllAddressed(s') && C.EventsPlaced(s'.db)
  {
    B.StepBudgeted(s, x, s', window);
    Addressing.StepAddressed(s, x, s');
    C.StepPlaced(s, x, s', window);
  }

  lemma StepSound(s: State, step: Step, s': State, window: int)
    requires Sound(s, window) && Next(s, step, s', window) && 0 < window <= 30
    ensures Sound(s', window)
  {
    match step
    case Operations(x) =>
      OperationsSound(s.p, x, s'.p, window);
      RowsStayPlain(s.p, x, s'.p);
      if EmitOf(s.p, x).Some? {
        EmitMirrors(s, x, s', window);
      } else {
        StepEvents(s.p, x, s'.p);
        MirrorsOnEvents(s.p.db, s'.p.db, s.a.outbox);
      }
    case Accounts(x) => AccountsMirror(s, x, s', window);
  }

  lemma {:induction false} RunSound(trace: seq<State>, steps: seq<Step>, window: int, i: nat)
    requires Run(trace, steps, window) && i <= |steps|
    ensures Sound(trace[i], window)
  {
    if i > 0 {
      RunSound(trace, steps, window, i - 1);
      StepSound(trace[i - 1], steps[i - 1], trace[i], window);
    }
  }

  // ----- Rows and keys of one operation correspond -----

  predicate RowHasKey(outbox: seq<U.OutboxRow>, i: nat, k: EventKey) {
    i < |outbox| && RenderEvent(k) == outbox[i].event.key
  }

  ghost predicate KeyAmong(outbox: seq<U.OutboxRow>, i: nat, keys: set<EventKey>) {
    exists k :: k in keys && RowHasKey(outbox, i, k)
  }

  ghost predicate RowAmong(outbox: seq<U.OutboxRow>, rows: set<nat>, k: EventKey) {
    exists i :: i in rows && RowHasKey(outbox, i, k)
  }

  /** Rows with distinct keys, each of some event in `keys`: no more rows than events. */
  lemma {:induction false} RowsAtMostKeys(outbox: seq<U.OutboxRow>, rows: set<nat>, keys: set<EventKey>)
    requires L.KeysDistinct(outbox)
    requires forall i :: i in rows ==> KeyAmong(outbox, i, keys)
    ensures |rows| <= |keys|
  {
    if rows != {} {
      var i :| i in rows;
      assert KeyAmong(outbox, i, keys);
      var k :| k in keys && RowHasKey(outbox, i, k);
      forall j | j in rows - {i}
        ensures KeyAmong(outbox, j, keys - {k})
      {
        OtherKeyAmong(outbox, i, j, keys, k);
      }
      RowsAtMostKeys(outbox, rows - {i}, keys - {k});
    }
  }

  lemma OtherKeyAmong(outbox: seq<U.OutboxRow>, i: nat, j: nat, keys: set<EventKey>, k: EventKey)
    requires L.KeysDistinct(outbox) && i != j && RowHasKey(outbox, i, k) && KeyAmong(outbox, j, keys)
    ensures KeyAmong(outbox, j, keys - {k})
  {
    var l :| l in keys && RowHasKey(outbox, j, l);
    assert l in keys - {k};
  }

  lemma {:induction false} KeysAtMostRows(outbox: seq<U.OutboxRow>, rows: set<nat>, keys: set<EventKey>)
    requires forall k :: k in keys ==> Plain(k.op)
    requires forall k :: k in keys ==> RowAmong(outbox, rows, k)
    ensures |keys| <= |rows|
  {
    if keys != {} {
      var k :| k in keys;
      assert RowAmong(outbox, rows, k);
      var i :| i in rows && RowHasKey(outbox, i, k);
      forall l | l in keys - {k}
        ensures RowAmong(outbox, rows - {i}, l)
      {
        assert RowAmong(outbox, rows, l);
        var j :| j in rows && RowHasKey(outbox, j, l);
        if j == i {
          EventKeysDistinct(k, l);
        }
        assert j in rows - {i};
      }
      KeysAtMostRows(outbox, rows - {i}, keys - {k});
    }
  }

  /** The outbox row of an event, and nothing else, has its operation. */
  lemma RowOfOperation(s: State, i: nat, window: int) returns (k: EventKey)
    requires Sound(s, window) && i < |s.a.outbox|
    ensures k in C.KeysOf(s.p.db, s.a.outbox[i].event.operation) && RowHasKey(s.a.outbox, i, k)
  {
    assert HasEvent(s.p.db, s.a.outbox[i].event);
    k :| k in s.p.db.events && s.a.outbox[i].event == RowEvent(k, s.p.db.events[k]);
  }

  lemma ChargedAtMostRecorded(s: State, window: int, o: string)
    requires Sound(s, window)
    ensures U.Total(s.a.ledger, U.OfOperation(o)) <= |C.KeysOf(s.p.db, o)|
  {
    L.LedgerFromRows(s.a);
    L.TotalCountsRows(s.a.outbox, s.a.ledger, U.OfOperation(o));
    var rows := L.ChargedRows(s.a.outbox, s.a.ledger, U.OfOperation(o));
    forall i | i in rows
      ensures KeyAmong(s.a.outbox, i, C.KeysOf(s.p.db, o))
    {
      var k := RowOfOperation(s, i, window);
    }
    RowsAtMostKeys(s.a.outbox, rows, C.KeysOf(s.p.db, o));
  }

  ghost predicate AllDelivered(s: State, o: string) {
    forall i :: 0 <= i < |s.a.outbox| && s.a.outbox[i].event.operation == o ==> s.a.outbox[i].delivered
  }

  lemma DeliveredRow(s: State, k: EventKey) returns (i: nat)
    requires L.Sound(s.a) && Mirrors(s.p.db, s.a.outbox) && k in s.p.db.events && AllDelivered(s, k.op)
    ensures i in L.ChargedRows(s.a.outbox, s.a.ledger, U.OfOperation(k.op)) && RowHasKey(s.a.outbox, i, k)
  {
    assert L.InRow(s.a.outbox, RowEvent(k, s.p.db.events[k]));
    i :| 0 <= i < |s.a.outbox| && s.a.outbox[i].event == RowEvent(k, s.p.db.events[k]);
    L.ReceivedExactlyKnown(s.a, s.a.outbox[i].event.key);
  }

  lemma DeliveredAllCharged(s: State, window: int, o: string)
    requires Sound(s, window) && AllDelivered(s, o)
    ensures |C.KeysOf(s.p.db, o)| <= U.Total(s.a.ledger, U.OfOperation(o))
  {
    L.LedgerFromRows(s.a);
    L.TotalCountsRows(s.a.outbox, s.a.ledger, U.OfOperation(o));
    var rows := L.ChargedRows(s.a.outbox, s.a.ledger, U.OfOperation(o));
    forall k | k in C.KeysOf(s.p.db, o)
      ensures RowAmong(s.a.outbox, rows, k)
    {
      var i := DeliveredRow(s, k);
    }
    KeysAtMostRows(s.a.outbox, rows, C.KeysOf(s.p.db, o));
  }

  // ----- Results -----

  /**
   What a private operation is charged in the usage ledger: at most one unit per recorded event, so at
   most 2*max_attempts however often it is redriven, and at most max_attempts if it never is.
   */
  lemma ChargeBound(trace: seq<State>, steps: seq<Step>, window: int, i: nat, o: string)
    requires Run(trace, steps, window) && i <= |steps|
    requires o in trace[i].p.db.rows && trace[i].p.db.rows[o].mode == Private
    ensures
      var charged, r := U.Total(trace[i].a.ledger, U.OfOperation(o)), trace[i].p.db.rows[o];
      && charged <= 2 * r.maxAttempts
      && (C.NeverRedriven(trace[i].p.db, o) ==> charged <= r.maxAttempts)
  {
    RunSound(trace, steps, window, i);
    ChargedAtMostRecorded(trace[i], window, o);
    C.KeysAtMostTwiceBudget(trace[i].p.db, o);
    if C.NeverRedriven(trace[i].p.db, o) {
      C.KeysAtMostBudget(trace[i].p.db, o);
    }
  }

  /**
   Nothing is lost either: once the operation's outbox rows are DELIVERED, its charge is exactly the events
   recorded.
   */
  lemma ChargeComplete(trace: seq<State>, steps: seq<Step>, window: int, i: nat, o: string)
    requires Run(trace, steps, window) && i <= |steps| && AllDelivered(trace[i], o)
    requires o in trace[i].p.db.rows && trace[i].p.db.rows[o].mode == Private
    ensures U.Total(trace[i].a.ledger, U.OfOperation(o)) == |C.KeysOf(trace[i].p.db, o)|
  {
    RunSound(trace, steps, window, i);
    ChargedAtMostRecorded(trace[i], window, o);
    DeliveredAllCharged(trace[i], window, o);
  }
}
