/**
 Exactly-once accounting, in every run of the pipeline: an outbox event enters the ledger at most once,
 a DELIVERED row stays DELIVERED and its event is in the ledger, and what a tenant or an operation was
 charged is the number of its events that reached the usage service at least once.
 */
module Ledger {
  import opened Domain
  import opened Usage
  import opened Accounting

  ghost predicate KeysDistinct(outbox: seq<OutboxRow>) {
    forall i, j :: 0 <= i < j < |outbox| ==> outbox[i].event.key != outbox[j].event.key
  }

  ghost predicate InRow(outbox: seq<OutboxRow>, e: OperationEvent) {
    exists i :: 0 <= i < |outbox| && outbox[i].event == e
  }

  ghost predicate ReadFrom(outbox: seq<OutboxRow>, items: seq<Item>) {
    forall i :: 0 <= i < |items| ==> items[i].id < |outbox| && outbox[items[i].id].event == items[i].event
  }

  /** Some request with this key was answered 202. */
  ghost predicate Received(s: State, key: string) {
    exists r :: r in s.accepted && r < |s.posts| && s.posts[r].key == key
  }

  ghost predicate DispatcherSound(s: State, x: Dispatcher) {
    && ReadFrom(s.outbox, x.items)
    && match x
       case Sending(_) => true
       case Awaiting(items, request) => items != [] && request < |s.posts| && s.posts[request] == items[0].event
       case Answered(items, ok) => items != [] && (ok ==> Received(s, items[0].event.key))
  }

  ghost predicate OutboxSound(s: State) {
    && KeysDistinct(s.outbox)
    && (forall i :: 0 <= i < |s.outbox| ==> s.outbox[i].event.units == 1)
    && (forall i :: 0 <= i < |s.outbox| && s.outbox[i].delivered ==> Received(s, s.outbox[i].event.key))
  }

  ghost predicate PostsSound(s: State) {
    && (forall r :: 0 <= r < |s.posts| ==> InRow(s.outbox, s.posts[r]))
    && (forall r :: r in s.accepted ==> r < |s.posts| && Acceptable(s.posts[r]) && Known(s.ledger, s.posts[r].key))
    && (forall d :: d in s.dispatchers ==> DispatcherSound(s, s.dispatchers[d]))
  }

  ghost predicate FromAccepted(s: State, e: Entry) {
    exists r :: r in s.accepted && r < |s.posts| && e == EntryOf(s.posts[r])
  }

  ghost predicate LedgerSound(s: State) {
    && (forall i, j :: 0 <= i < j < |s.ledger| ==> s.ledger[i].key != s.ledger[j].key)
    && (forall n :: 0 <= n < |s.ledger| ==> FromAccepted(s, s.ledger[n]))
  }

  ghost predicate Sound(s: State) {
    OutboxSound(s) && PostsSound(s) && LedgerSound(s)
  }

  // ----- What only grows -----

  predicate SameEvents(outbox: seq<OutboxRow>, outbox': seq<OutboxRow>) {
    && |outbox| <= |outbox'|
    && (forall i :: 0 <= i < |outbox| ==>
          outbox'[i].event == outbox[i].event && (outbox[i].delivered ==> outbox'[i].delivered))
  }

  /** No event, request, answer or ledger entry is ever taken back, and DELIVERED is absorbing. */
  predicate Grows(s: State, s': State) {
    SameEvents(s.outbox, s'.outbox) && s.posts <= s'.posts && s.accepted <= s'.accepted && s.ledger <= s'.ledger
  }

  lemma StepGrows(s: State, step: Step, s': State)
    requires Next(s, step, s')
    ensures Grows(s, s')
  {
    match step
    case ByEvent(x) => EventGrows(s, x, s');
    case ByHook(x) => HookGrows(s, x, s');
  }

  lemma EventGrows(s: State, step: EventStep, s': State)
    requires EventNext(s, step, s')
    ensures Grows(s, s')
  {
    match step
    case StAddEvent(_) =>
    case StSelect(_, _) =>
    case StPost(_, _) =>
    case StReply(_, _) =>
    case StSave(_, _) =>
    case StQuit(_) =>
    case StReceive(_) =>
  }

  lemma HookGrows(s: State, step: HookStep, s': State)
    requires HookNext(s, step, s')
    ensures Grows(s, s') && s'.outbox == s.outbox && s'.posts == s.posts && s'.accepted == s.accepted
    ensures s'.ledger == s.ledger
    ensures s'.dispatchers == s.dispatchers
  {
    match step
    case StPick(_, _) =>
    case StSend(_, _) =>
    case StSettle(_, _, _) =>
    case StDie(_) =>
    case StSetEndpoints(_) =>
    case StPass(_) =>
  }

  lemma ReceivedStays(s: State, s': State, key: string)
    requires Grows(s, s') && Received(s, key)
    ensures Received(s', key)
  {
    var r :| r in s.accepted && r < |s.posts| && s.posts[r].key == key;
    assert r in s'.accepted && s'.posts[r] == s.posts[r];
  }

  lemma KnownStays(s: State, s': State, key: string)
    requires Grows(s, s') && Known(s.ledger, key)
    ensures Known(s'.ledger, key)
  {
    var i :| 0 <= i < |s.ledger| && s.ledger[i].key == key;
    assert s'.ledger[i] == s.ledger[i];
  }

  lemma FromAcceptedStays(s: State, s': State, e: Entry)
    requires Grows(s, s') && FromAccepted(s, e)
    ensures FromAccepted(s', e)
  {
    var r :| r in s.accepted && r < |s.posts| && e == EntryOf(s.posts[r]);
    assert r in s'.accepted && s'.posts[r] == s.posts[r];
  }

  lemma InRowStays(outbox: seq<OutboxRow>, outbox': seq<OutboxRow>, e: OperationEvent)
    requires InRow(outbox, e) && SameEvents(outbox, outbox')
    ensures InRow(outbox', e)
  {
    var i :| 0 <= i < |outbox| && outbox[i].event == e;
    assert outbox'[i].event == e;
  }

  lemma DispatcherStays(s: State, s': State, x: Dispatcher)
    requires DispatcherSound(s, x) && Grows(s, s')
    ensures DispatcherSound(s', x)
  {
    if x.Answered? && x.ok {
      ReceivedStays(s, s', x.items[0].event.key);
    }
  }

  // ----- Preservation -----

  lemma StepOutbox(s: State, step: EventStep, s': State)
    requires Sound(s) && EventNext(s, step, s')
    ensures OutboxSound(s')
  {
    EventGrows(s, step, s');
    forall i | 0 <= i < |s'.outbox| && s'.outbox[i].delivered
      ensures Received(s', s'.outbox[i].event.key)
    {
      if i < |s.outbox| && s.outbox[i].delivered {
        ReceivedStays(s, s', s.outbox[i].event.key);
      } else {
        NewlyDelivered(s, step, s', i);
      }
    }
    match step
    case StAddEvent(e) => assert forall i :: 0 <= i < |s.outbox| ==> s'.outbox[i] == s.outbox[i];
    case StSelect(_, _) =>
    case StPost(_, _) =>
    case StReply(_, _) =>
    case StSave(_, _) => assert forall i :: 0 <= i < |s.outbox| ==> s'.outbox[i].event == s.outbox[i].event;
    case StQuit(_) =>
    case StReceive(_) =>
  }

  /** A row becomes DELIVERED only on a 202 for its own event. */
  lemma NewlyDelivered(s: State, step: EventStep, s': State, i: nat)
    requires PostsSound(s) && EventNext(s, step, s') && i < |s'.outbox| && s'.outbox[i].delivered
    requires i < |s.outbox| ==> !s.outbox[i].delivered
    ensures Received(s', s'.outbox[i].event.key)
  {
    assert step.StSave?;
    assert DispatcherSound(s, s.dispatchers[step.d]);
    EventGrows(s, step, s');
    ReceivedStays(s, s', s.outbox[i].event.key);
  }

  lemma StepDispatcher(s: State, step: EventStep, s': State, d: nat)
    requires PostsSound(s) && EventNext(s, step, s') && d in s'.dispatchers
    ensures DispatcherSound(s', s'.dispatchers[d])
  {
    EventGrows(s, step, s');
    if d in s.dispatchers && s'.dispatchers[d] == s.dispatchers[d] {
      DispatcherStays(s, s', s.dispatchers[d]);
    } else {
      MovedDispatcher(s, step, s', d);
    }
  }

  lemma MovedDispatcher(s: State, step: EventStep, s': State, d: nat)
    requires PostsSound(s) && EventNext(s, step, s') && Grows(s, s') && d in s'.dispatchers
    requires d !in s.dispatchers || s'.dispatchers[d] != s.dispatchers[d]
    ensures DispatcherSound(s', s'.dispatchers[d])
  {
    if d in s.dispatchers {
      assert DispatcherSound(s, s.dispatchers[d]);
    }
    match step
    case StAddEvent(_) =>
    case StSelect(_, _) =>
    case StPost(_, _) =>
    case StReply(_, ok) =>
      var x := s.dispatchers[d];
      assert ok ==> s'.posts[x.request].key == x.items[0].event.key;
    case StSave(_, _) =>
    case StQuit(_) =>
    case StReceive(_) =>
  }

  lemma StepPosts(s: State, step: EventStep, s': State)
    requires Sound(s) && EventNext(s, step, s')
    ensures PostsSound(s')
  {
    EventGrows(s, step, s');
    forall r | 0 <= r < |s'.posts|
      ensures InRow(s'.outbox, s'.posts[r])
    {
      if r < |s.posts| {
        InRowStays(s.outbox, s'.outbox, s.posts[r]);
      } else {
        PostedFromRow(s, step, s');
      }
    }
    forall r | r in s'.accepted
      ensures r < |s'.posts| && Acceptable(s'.posts[r]) && Known(s'.ledger, s'.posts[r].key)
    {
      if r in s.accepted {
        KnownStays(s, s', s.posts[r].key);
      } else {
        AcceptedIsKnown(s, step, s');
      }
    }
    forall d | d in s'.dispatchers
      ensures DispatcherSound(s', s'.dispatchers[d])
    {
      StepDispatcher(s, step, s', d);
    }
  }

  lemma PostedFromRow(s: State, step: EventStep, s': State)
    requires PostsSound(s) && EventNext(s, step, s') && |s'.posts| > |s.posts|
    ensures |s'.posts| == |s.posts| + 1 && InRow(s'.outbox, s'.posts[|s.posts|])
  {
    var x := s.dispatchers[step.d];
    assert DispatcherSound(s, x);
    assert s'.outbox[x.items[0].id].event == s'.posts[|s.posts|];
  }

  lemma AcceptedIsKnown(s: State, step: EventStep, s': State)
    requires EventNext(s, step, s') && s'.accepted != s.accepted
    ensures step.StReceive? && s'.accepted == s.accepted + {step.r} && step.r < |s'.posts|
    ensures Acceptable(s'.posts[step.r]) && Known(s'.ledger, s'.posts[step.r].key)
  {
    if !Known(s.ledger, s.posts[step.r].key) {
      assert s'.ledger[|s.ledger|].key == s.posts[step.r].key;
    }
  }

  lemma StepLedger(s: State, step: EventStep, s': State)
    requires Sound(s) && EventNext(s, step, s')
    ensures LedgerSound(s')
  {
    EventGrows(s, step, s');
    forall n | 0 <= n < |s'.ledger|
      ensures FromAccepted(s', s'.ledger[n])
    {
      if n < |s.ledger| {
        FromAcceptedStays(s, s', s.ledger[n]);
      } else {
        assert s'.ledger[n] == EntryOf(s'.posts[step.r]);
      }
    }
    forall i, j | 0 <= i < j < |s'.ledger|
      ensures s'.ledger[i].key != s'.ledger[j].key
    {
      assert s'.ledger[i] == s.ledger[i];
    }
  }

  lemma StepSound(s: State, step: Step, s': State)
    requires Sound(s) && Next(s, step, s')
    ensures Sound(s')
  {
    match step
    case ByEvent(x) =>
      StepOutbox(s, x, s');
      StepPosts(s, x, s');
      StepLedger(s, x, s');
    case ByHook(x) =>
      HookGrows(s, x, s');
      HookSound(s, s');
  }

  lemma HookSound(s: State, s': State)
    requires Sound(s) && s'.outbox == s.outbox && s'.posts == s.posts && s'.accepted == s.accepted
    requires s'.ledger == s.ledger && s'.dispatchers == s.dispatchers
    ensures Sound(s')
  {
    forall i | 0 <= i < |s'.outbox| && s'.outbox[i].delivered
      ensures Received(s', s'.outbox[i].event.key)
    {
      ReceivedStays(s, s', s.outbox[i].event.key);
    }
    forall d | d in s'.dispatchers
      ensures DispatcherSound(s', s'.dispatchers[d])
    {
      DispatcherStays(s, s', s.dispatchers[d]);
    }
    forall n | 0 <= n < |s'.ledger|
      ensures FromAccepted(s', s'.ledger[n])
    {
      FromAcceptedStays(s, s', s.ledger[n]);
    }
  }

  lemma {:induction false} RunSound(trace: seq<State>, steps: seq<Step>, i: nat)
    requires Run(trace, steps) && i <= |steps|
    ensures Sound(trace[i])
  {
    if i > 0 {
      RunSound(trace, steps, i - 1);
      StepSound(trace[i - 1], steps[i - 1], trace[i]);
    }
  }

  lemma GrowsTransitive(r: State, s: State, t: State)
    requires Grows(r, s) && Grows(s, t)
    ensures Grows(r, t)
  {
  }

  lemma {:induction false} RunGrows(trace: seq<State>, steps: seq<Step>, i: nat, j: nat)
    requires Run(trace, steps) && i <= j <= |steps|
    ensures Grows(trace[i], trace[j])
  {
    if i < j {
      RunGrows(trace, steps, i, j - 1);
      StepGrows(trace[j - 1], steps[j - 1], trace[j]);
      GrowsTransitive(trace[i], trace[j - 1], trace[j]);
    }
  }

  // ----- Counting -----

  /** Rows of the account whose key is in the ledger. */
  function ChargedRows(outbox: seq<OutboxRow>, ledger: seq<Entry>, a: Account): set<nat> {
    set i: nat | i < |outbox| && Concerns(a, outbox[i].event.tenant, outbox[i].event.operation)
        && Known(ledger, outbox[i].event.key)
  }

  ghost predicate OfRow(outbox: seq<OutboxRow>, e: Entry) {
    exists i :: 0 <= i < |outbox| && e == EntryOf(outbox[i].event)
  }

  ghost predicate FromRows(outbox: seq<OutboxRow>, ledger: seq<Entry>) {
    forall n :: 0 <= n < |ledger| ==> OfRow(outbox, ledger[n])
  }

  lemma {:induction false} TotalCountsRows(outbox: seq<OutboxRow>, ledger: seq<Entry>, a: Account)
    requires KeysDistinct(outbox) && (forall i :: 0 <= i < |outbox| ==> outbox[i].event.units == 1)
    requires FromRows(outbox, ledger) && (forall i, j :: 0 <= i < j < |ledger| ==> ledger[i].key != ledger[j].key)
    ensures Total(ledger, a) == |ChargedRows(outbox, ledger, a)|
  {
    if ledger == [] {
      assert ChargedRows(outbox, ledger, a) == {};
    } else {
      var n := |ledger| - 1;
      assert forall k :: 0 <= k < n ==> ledger[..n][k] == ledger[k];
      assert OfRow(outbox, ledger[n]);
      TotalCountsRows(outbox, ledger[..n], a);
      var i :| 0 <= i < |outbox| && ledger[n] == EntryOf(outbox[i].event);
      LastEntryCounts(outbox, ledger, a, i);
    }
  }

  lemma LastEntryCounts(outbox: seq<OutboxRow>, ledger: seq<Entry>, a: Account, i: nat)
    requires KeysDistinct(outbox) && (forall i, j :: 0 <= i < j < |ledger| ==> ledger[i].key != ledger[j].key)
    requires ledger != [] && i < |outbox| && ledger[|ledger| - 1] == EntryOf(outbox[i].event)
    ensures
      var before, e := ledger[..|ledger| - 1], outbox[i].event;
      && i !in ChargedRows(outbox, before, a)
      && ChargedRows(outbox, ledger, a)
         == ChargedRows(outbox, before, a) + if Concerns(a, e.tenant, e.operation) then {i} else {}
  {
    var before := ledger[..|ledger| - 1];
    forall key
      ensures Known(ledger, key) <==> Known(before, key) || key == outbox[i].event.key
    {
      if k :| 0 <= k < |ledger| && ledger[k].key == key {
        assert k < |before| ==> before[k] == ledger[k];
      }
      if k :| 0 <= k < |before| && before[k].key == key {
        assert ledger[k].key == key;
      }
    }
  }

  // ----- Results -----

  /** The rows of an account whose event was answered 202 at least once. */
  ghost function ReceivedRows(s: State, a: Account): set<nat> {
    set i: nat | i < |s.outbox| && Concerns(a, s.outbox[i].event.tenant, s.outbox[i].event.operation)
        && Received(s, s.outbox[i].event.key)
  }

  lemma ReceivedExactlyKnown(s: State, key: string)
    requires Sound(s)
    ensures Received(s, key) <==> Known(s.ledger, key)
  {
    if Known(s.ledger, key) {
      var n :| 0 <= n < |s.ledger| && s.ledger[n].key == key;
      assert FromAccepted(s, s.ledger[n]);
      var r :| r in s.accepted && r < |s.posts| && s.ledger[n] == EntryOf(s.posts[r]);
      assert s.posts[r].key == key;
    }
  }

  lemma LedgerFromRows(s: State)
    requires Sound(s)
    ensures FromRows(s.outbox, s.ledger)
  {
    forall n | 0 <= n < |s.ledger|
      ensures OfRow(s.outbox, s.ledger[n])
    {
      assert FromAccepted(s, s.ledger[n]);
      var r :| r in s.accepted && r < |s.posts| && s.ledger[n] == EntryOf(s.posts[r]);
      var i :| 0 <= i < |s.outbox| && s.outbox[i].event == s.posts[r];
      assert s.ledger[n] == EntryOf(s.outbox[i].event);
    }
  }

  /**
   Whatever is lost, repeated or stale: a sum over the ledger is the number of the account's events received
   at least once.
   */
  lemma LedgerSumExactly(trace: seq<State>, steps: seq<Step>, i: nat, a: Account)
    requires Run(trace, steps) && i <= |steps|
    ensures Total(trace[i].ledger, a) == |ReceivedRows(trace[i], a)|
  {
    var s := trace[i];
    RunSound(trace, steps, i);
    LedgerFromRows(s);
    TotalCountsRows(s.outbox, s.ledger, a);
    forall key
      ensures Received(s, key) <==> Known(s.ledger, key)
    {
      ReceivedExactlyKnown(s, key);
    }
    assert ReceivedRows(s, a) == ChargedRows(s.outbox, s.ledger, a);
  }

  /** Each key has at most one ledger entry, and that entry is its outbox row's. */
  lemma LedgerKeysOnce(trace: seq<State>, steps: seq<Step>, i: nat, m: nat, n: nat)
    requires Run(trace, steps) && i <= |steps| && m < |trace[i].ledger| && n < |trace[i].ledger|
    ensures trace[i].ledger[m].key == trace[i].ledger[n].key ==> m == n
    ensures exists k :: 0 <= k < |trace[i].outbox| && trace[i].ledger[m] == EntryOf(trace[i].outbox[k].event)
  {
    RunSound(trace, steps, i);
    LedgerFromRows(trace[i]);
    assert OfRow(trace[i].outbox, trace[i].ledger[m]);
  }

  /**
   A row seen DELIVERED is DELIVERED in every later state, stale failure reports notwithstanding, and its
   event is in the ledger.
   */
  lemma DeliveredForGood(trace: seq<State>, steps: seq<Step>, i: nat, j: nat, k: nat)
    requires Run(trace, steps) && i <= j <= |steps| && k < |trace[i].outbox| && trace[i].outbox[k].delivered
    ensures k < |trace[j].outbox| && trace[j].outbox[k].delivered
    ensures trace[j].outbox[k].event == trace[i].outbox[k].event
    ensures EntryOf(trace[j].outbox[k].event) in trace[i].ledger && trace[i].ledger <= trace[j].ledger
  {
    RunGrows(trace, steps, i, j);
    RunSound(trace, steps, i);
    var s, key := trace[i], trace[i].outbox[k].event.key;
    ReceivedExactlyKnown(s, key);
    LedgerFromRows(s);
    var n :| 0 <= n < |s.ledger| && s.ledger[n].key == key;
    assert OfRow(s.outbox, s.ledger[n]);
    var m :| 0 <= m < |s.outbox| && s.ledger[n] == EntryOf(s.outbox[m].event);
    assert m == k;
  }
}
