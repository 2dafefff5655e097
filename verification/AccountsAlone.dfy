/**
 One dispatch of AccountingService.dfy, whatever the network does to its requests, is a run of the accounting
 machine.
 */
module AccountsAlone {
  import opened Domain
  import opened Usage
  import opened Accounting
  import B = Books
  import L = Ledger
  import W = Webhooks

  function BooksOf(s: State): B.Accounts {
    B.Accounts(s.now, s.outbox, s.ledger, s.endpoints, s.hooks)
  }

  ghost predicate Way(trace: seq<State>, steps: seq<Step>) {
    && |trace| == |steps| + 1
    && (forall i :: 0 <= i < |steps| ==> Next(trace[i], steps[i], trace[i + 1]))
  }

  ghost predicate Reaches(s: State, s': State) {
    exists trace, steps :: Way(trace, steps) && trace[0] == s && trace[|steps|] == s'
  }

  lemma ReachesSelf(s: State)
    ensures Reaches(s, s)
  {
    assert Way([s], []);
  }

  lemma Onward(s: State, m: State, step: Step, s': State)
    requires Reaches(s, m) && Next(m, step, s')
    ensures Reaches(s, s')
  {
    var trace, steps :| Way(trace, steps) && trace[0] == s && trace[|steps|] == m;
    var trace', steps' := trace + [s'], steps + [step];
    forall i | 0 <= i < |steps'|
      ensures Next(trace'[i], steps'[i], trace'[i + 1])
    {
      assert i < |steps| ==> steps'[i] == steps[i] && trace'[i] == trace[i] && trace'[i + 1] == trace[i + 1];
    }
    assert Way(trace', steps');
  }

  /** A state reached by a run extends it to a run. */
  lemma RunReaches(trace: seq<State>, steps: seq<Step>, s': State) returns (trace': seq<State>, steps': seq<Step>)
    requires Run(trace, steps) && Reaches(trace[|steps|], s')
    ensures Run(trace', steps') && trace'[|steps'|] == s'
  {
    var t, x :| Way(t, x) && t[0] == trace[|steps|] && t[|x|] == s';
    trace', steps' := trace + t[1..], steps + x;
    forall i | 0 <= i < |steps'|
      ensures Next(trace'[i], steps'[i], trace'[i + 1])
    {
      if i < |steps| {
        assert Next(trace[i], steps[i], trace[i + 1]);
      } else {
        assert Next(t[i - |steps|], x[i - |steps|], t[i - |steps| + 1]);
        assert trace'[i] == t[i - |steps|];
      }
    }
  }

  // ----- dispatchEventBatch -----

  /** Same requests and dispatchers, the books of `b`. */
  predicate OnlyBooks(s: State, s': State, b: B.Accounts) {
    BooksOf(s') == b && s'.posts == s.posts && s'.dispatchers == s.dispatchers && s'.couriers == s.couriers
  }

  lemma {:induction false} ReceivesAlone(from: State, s: State, r: nat, copies: nat) returns (s': State)
    requires Reaches(from, s) && r < |s.posts|
    ensures Reaches(from, s') && OnlyBooks(s, s', B.RecordTimes(BooksOf(s), s.posts[r], copies))
    ensures copies > 0 && Acceptable(s.posts[r]) ==> r in s'.accepted
  {
    if copies == 0 {
      s' := s;
    } else {
      var m := ReceivesAlone(from, s, r, copies - 1);
      s' := DoReceive(m, r);
      Onward(from, m, ByEvent(StReceive(r)), s');
    }
  }

  lemma ItemAlone(from: State, s: State, d: nat, items: seq<Item>, f: B.Fate) returns (s': State)
    requires Reaches(from, s) && d in s.dispatchers && s.dispatchers[d] == Sending(items) && items != []
    requires items[0].id < |s.outbox|
    ensures Reaches(from, s') && BooksOf(s') == B.Dispatch(BooksOf(s), items[0], f)
    ensures s'.dispatchers == s.dispatchers[d := Sending(items[1..])] && |s'.outbox| == |s.outbox|
    ensures s'.couriers == s.couriers
  {
    var r, e, ok := |s.posts|, items[0].event, B.Confirmed(items[0].event, f);
    var s1 := DoPost(s, d, true);
    Onward(from, s, ByEvent(StPost(d, true)), s1);
    var s2 := ReceivesAlone(from, s1, r, f.copies);
    B.RecordTimesFrame(BooksOf(s), e, f.copies);
    var s3 := DoReply(s2, d, ok);
    Onward(from, s2, ByEvent(StReply(d, ok)), s3);
    s' := DoSave(s3, d, f.saved);
    Onward(from, s3, ByEvent(StSave(d, f.saved)), s');
    assert s'.dispatchers == s.dispatchers[d := Sending(items[1..])];
  }

  lemma {:induction false} ItemsAlone(from: State, s: State, d: nat, items: seq<Item>, fates: seq<B.Fate>, n: nat)
    returns (s': State)
    requires Reaches(from, s) && d in s.dispatchers && s.dispatchers[d] == Sending(items) && n <= |items| <= |fates|
    requires forall i :: 0 <= i < |items| ==> items[i].id < |s.outbox|
    ensures Reaches(from, s') && BooksOf(s') == B.DispatchAll(BooksOf(s), items[..n], fates)
    ensures s'.dispatchers == s.dispatchers[d := Sending(items[n..])] && |s'.outbox| == |s.outbox|
    ensures s'.couriers == s.couriers
  {
    if n == 0 {
      s' := s;
      assert items[0..] == items;
    } else {
      var m := ItemsAlone(from, s, d, items, fates, n - 1);
      s' := ItemAlone(from, m, d, items[n - 1..], fates[n - 1]);
      assert items[..n][..n - 1] == items[..n - 1];
      assert items[n - 1..][1..] == items[n..];
    }
  }

  function BatchItems(s: State): seq<Item> {
    B.EventItems(s.outbox, B.DueIds(s.outbox, s.now, 0, EVENT_BATCH))
  }

  function Selected(s: State, d: nat): State {
    s.(dispatchers := s.dispatchers[d := Sending(BatchItems(s))])
  }

  /** The batch of the loop is one the machine's SELECT may read. */
  lemma SelectsBatch(s: State, d: nat)
    requires d !in s.dispatchers
    ensures Reaches(s, Selected(s, d)) && |BatchItems(s)| <= EVENT_BATCH
    ensures forall i :: 0 <= i < |BatchItems(s)| ==> BatchItems(s)[i].id < |s.outbox|
  {
    var ids := B.DueIds(s.outbox, s.now, 0, EVENT_BATCH);
    assert EventBatch(s, ids);
    assert DoSelect(s, d, ids).dispatchers[d].items == BatchItems(s);
    ReachesSelf(s);
    Onward(s, s, ByEvent(StSelect(d, ids)), Selected(s, d));
  }

  lemma QuitsAlone(from: State, s: State, d: nat, dispatchers: map<nat, Dispatcher>)
    requires Reaches(from, s) && d in s.dispatchers && d !in dispatchers
    requires s.dispatchers == dispatchers[d := s.dispatchers[d]]
    ensures Reaches(from, s.(dispatchers := dispatchers))
  {
    assert s.dispatchers - {d} == dispatchers;
    Onward(from, s, ByEvent(StQuit(d)), s.(dispatchers := dispatchers));
  }

  lemma DispatchAlone(s: State, d: nat, fates: seq<B.Fate>) returns (s': State)
    requires d !in s.dispatchers && |fates| >= EVENT_BATCH
    ensures Reaches(s, s') && BooksOf(s') == B.DispatchBatch(BooksOf(s), fates)
    ensures s'.dispatchers == s.dispatchers && s'.couriers == s.couriers
  {
    var items := BatchItems(s);
    SelectsBatch(s, d);
    var s2 := ItemsAlone(s, Selected(s, d), d, items, fates, |items|);
    assert items[..|items|] == items;
    QuitsAlone(s, s2, d, s.dispatchers);
    s' := s2.(dispatchers := s.dispatchers);
  }

  // ----- dispatchBatch and deliver -----

  /** Same requests and ledger, other webhook rows. */
  predicate OnlyHooks(s: State, s': State, hooks: seq<Hook>) {
    s' == s.(hooks := hooks, couriers := s'.couriers)
  }

  lemma ParcelAlone(from: State, s: State, c: nat, items: seq<Parcel>, o: B.Outcome) returns (s': State)
    requires Reaches(from, s) && c in s.couriers && s.couriers[c] == Carrying(items) && items != []
    requires items[0].id < |s.hooks|
    ensures Reaches(from, s') && OnlyHooks(s, s', B.Delivered(s.hooks, items[0], o, s.now))
    ensures s'.couriers == s.couriers[c := Carrying(items[1..])]
  {
    var s1 := DoSend(s, c, o.requested);
    Onward(from, s, ByHook(StSend(c, o.requested)), s1);
    s' := DoSettle(s1, c, B.Succeeded(o), o.saved);
    Onward(from, s1, ByHook(StSettle(c, B.Succeeded(o), o.saved)), s');
    assert s'.couriers == s.couriers[c := Carrying(items[1..])];
    assert s'.hooks == B.Delivered(s.hooks, items[0], o, s.now);
  }

  lemma {:induction false} ParcelsAlone(from: State, s: State, c: nat, items: seq<Parcel>, outcomes: seq<B.Outcome>,
                                        n: nat)
    returns (s': State)
    requires Reaches(from, s) && c in s.couriers && s.couriers[c] == Carrying(items) && n <= |items| <= |outcomes|
    requires forall i :: 0 <= i < |items| ==> items[i].id < |s.hooks|
    ensures Reaches(from, s') && OnlyHooks(s, s', B.DeliverAll(s.hooks, items[..n], outcomes, s.now))
    ensures s'.couriers == s.couriers[c := Carrying(items[n..])]
  {
    if n == 0 {
      s' := s;
      assert items[0..] == items;
    } else {
      var m := ParcelsAlone(from, s, c, items, outcomes, n - 1);
      s' := ParcelAlone(from, m, c, items[n - 1..], outcomes[n - 1]);
      assert items[..n][..n - 1] == items[..n - 1];
      assert items[n - 1..][1..] == items[n..];
    }
  }

  function DueNow(s: State): seq<nat> {
    B.DueHooks(s.hooks, s.now, 0, HOOK_BATCH)
  }

  function AfterPick(s: State, c: nat): State {
    s.(hooks := B.Picked(s.hooks, DueNow(s)), couriers := s.couriers[c := Carrying(B.Parcels(s.hooks, DueNow(s)))])
  }

  lemma PicksBatch(s: State, c: nat)
    requires c !in s.couriers
    ensures Reaches(s, AfterPick(s, c)) && |AfterPick(s, c).hooks| == |s.hooks|
    ensures |B.Parcels(s.hooks, DueNow(s))| <= HOOK_BATCH
    ensures forall i :: 0 <= i < |B.Parcels(s.hooks, DueNow(s))| ==> B.Parcels(s.hooks, DueNow(s))[i].id < |s.hooks|
  {
    var ids := DueNow(s);
    var s1 := DoPick(s, c, ids);
    assert s1.couriers[c].items == B.Parcels(s.hooks, ids) && s1.hooks == B.Picked(s.hooks, ids);
    ReachesSelf(s);
    Onward(s, s, ByHook(StPick(c, ids)), s1);
  }

  lemma DiesAlone(from: State, s: State, c: nat, couriers: map<nat, Courier>)
    requires Reaches(from, s) && c in s.couriers && c !in couriers && s.couriers == couriers[c := s.couriers[c]]
    ensures Reaches(from, s.(couriers := couriers))
  {
    assert s.couriers - {c} == couriers;
    Onward(from, s, ByHook(StDie(c)), s.(couriers := couriers));
  }

  lemma DeliverAlone(s: State, c: nat, outcomes: seq<B.Outcome>) returns (s': State)
    requires c !in s.couriers && |outcomes| >= HOOK_BATCH
    ensures Reaches(s, s')
    ensures
      s' == s.(hooks := B.DeliverAll(B.Picked(s.hooks, DueNow(s)), B.Parcels(s.hooks, DueNow(s)), outcomes, s.now))
  {
    var items, s1 := B.Parcels(s.hooks, DueNow(s)), AfterPick(s, c);
    PicksBatch(s, c);
    var s2 := ParcelsAlone(s, s1, c, items, outcomes, |items|);
    assert items[..|items|] == items;
    DiesAlone(s, s2, c, s.couriers);
    s' := s2.(couriers := s.couriers);
    assert s' == s.(hooks := s2.hooks);
  }

  // ----- What is proved of every run holds of the code -----

  /**
   A dispatch in any reachable state, whatever becomes of its requests: no key is recorded twice, and
   DELIVERED events are in the ledger.
   */
  lemma DispatchKeepsBooks(trace: seq<State>, steps: seq<Step>, d: nat, fates: seq<B.Fate>)
    requires Run(trace, steps) && d !in trace[|steps|].dispatchers && |fates| >= EVENT_BATCH
    ensures
      var b := B.DispatchBatch(BooksOf(trace[|steps|]), fates);
      && (forall i, j :: 0 <= i < j < |b.ledger| ==> b.ledger[i].key != b.ledger[j].key)
      && (forall k :: 0 <= k < |b.outbox| && b.outbox[k].delivered ==> Known(b.ledger, b.outbox[k].event.key))
  {
    var s := DispatchAlone(trace[|steps|], d, fates);
    var trace', steps' := RunReaches(trace, steps, s);
    L.RunSound(trace', steps', |steps'|);
    forall k | 0 <= k < |s.outbox| && s.outbox[k].delivered
      ensures Known(s.ledger, s.outbox[k].event.key)
    {
      L.ReceivedExactlyKnown(s, s.outbox[k].event.key);
    }
  }

  /**
   A webhook dispatch in any reachable state: no row is posted a ninth time, or waits more than 254 seconds
   in all.
   */
  lemma DeliverKeepsBounds(trace: seq<State>, steps: seq<Step>, c: nat, outcomes: seq<B.Outcome>, k: nat)
    requires Run(trace, steps) && c !in trace[|steps|].couriers && |outcomes| >= HOOK_BATCH
    requires k < |trace[|steps|].hooks|
    ensures
      var s := trace[|steps|];
      var hooks := B.DeliverAll(B.Picked(s.hooks, DueNow(s)), B.Parcels(s.hooks, DueNow(s)), outcomes, s.now);
      hooks[k].posted <= 8 && hooks[k].backoff <= 254
  {
    var s := DeliverAlone(trace[|steps|], c, outcomes);
    var trace', steps' := RunReaches(trace, steps, s);
    W.PostedAtMostEight(trace', steps', |steps'|, k);
    W.BackoffAtMost254(trace', steps', |steps'|, k);
  }
}
