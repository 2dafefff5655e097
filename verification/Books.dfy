/**
 What recordEvent, dispatchEventBatch and dispatchBatch do to the accounting tables when nothing
 interleaves, given what the network did to each request. AccountingService.dfy proves the code of the
 three against these functions.
 */
module Books {
  import opened Domain
  import opened Usage

  datatype Accounts = Accounts(now: int, outbox: seq<OutboxRow>, ledger: seq<Entry>, endpoints: seq<Endpoint>,
      hooks: seq<Hook>)

  // ----- recordEvent -----

  function Record(b: Accounts, e: OperationEvent): Accounts {
    if Fresh(b.ledger, e) then
      b.(ledger := Recorded(b.ledger, e), hooks := b.hooks + HooksFor(b.endpoints, e, |b.ledger|, b.now))
    else b
  }

  /** The request arrives `copies` times. */
  function RecordTimes(b: Accounts, e: OperationEvent, copies: nat): Accounts {
    if copies == 0 then b else Record(RecordTimes(b, e, copies - 1), e)
  }

  /** Any number of arrivals is as good as one: same ledger, same webhook rows. */
  lemma {:induction false} RecordIdempotent(b: Accounts, e: OperationEvent, copies: nat)
    requires copies > 0
    ensures RecordTimes(b, e, copies) == Record(b, e)
  {
    if copies > 1 {
      RecordIdempotent(b, e, copies - 1);
      assert Fresh(b.ledger, e) ==> Record(b, e).ledger[|b.ledger|].key == e.key;
    } else {
      assert RecordTimes(b, e, 0) == b;
    }
  }

  // ----- dispatchEventBatch -----

  /** What became of one POST: how often it arrived, whether its 2xx came back, whether the UPDATE went through. */
  datatype Fate = Fate(copies: nat, replied: bool, saved: bool)

  predicate Confirmed(e: OperationEvent, f: Fate) {
    f.copies > 0 && f.replied && Acceptable(e)
  }

  /** Positions of the first `limit` due rows from position k on. */
  function DueIds(outbox: seq<OutboxRow>, now: int, k: nat, limit: nat): (ids: seq<nat>)
    requires k <= |outbox|
    ensures |ids| <= limit
    ensures forall i :: 0 <= i < |ids| ==> k <= ids[i] < |outbox| && Due(outbox[ids[i]], now)
    ensures forall i, j :: 0 <= i < j < |ids| ==> ids[i] < ids[j]
    ensures forall m :: k <= m < |outbox| && Due(outbox[m], now) && m !in ids ==>
              |ids| == limit && (limit > 0 ==> ids[limit - 1] < m)
    decreases |outbox| - k
  {
    if k == |outbox| || limit == 0 then []
    else if Due(outbox[k], now) then [k] + DueIds(outbox, now, k + 1, limit - 1)
    else DueIds(outbox, now, k + 1, limit)
  }

  function EventItems(outbox: seq<OutboxRow>, ids: seq<nat>): (items: seq<Item>)
    requires forall i :: 0 <= i < |ids| ==> ids[i] < |outbox|
    ensures |items| == |ids|
    ensures forall i :: 0 <= i < |ids| ==> items[i] == Item(ids[i], outbox[ids[i]].event, outbox[ids[i]].attempt)
  {
    seq(|ids|, i requires 0 <= i < |ids| => Item(ids[i], outbox[ids[i]].event, outbox[ids[i]].attempt))
  }

  function Dispatch(b: Accounts, it: Item, f: Fate): Accounts {
    var b1 := RecordTimes(b, it.event, f.copies);
    if !f.saved || it.id >= |b1.outbox| then b1
    else
      var row := b1.outbox[it.id];
      var row' := if Confirmed(it.event, f) then MarkDelivered(row) else MarkFailed(row, it.attempt, b1.now);
      b1.(outbox := b1.outbox[it.id := row'])
  }

  function DispatchAll(b: Accounts, items: seq<Item>, fates: seq<Fate>): Accounts
    requires |items| <= |fates|
  {
    if items == [] then b
    else Dispatch(DispatchAll(b, items[..|items| - 1], fates), items[|items| - 1], fates[|items| - 1])
  }

  function DispatchBatch(b: Accounts, fates: seq<Fate>): Accounts
    requires |fates| >= EVENT_BATCH
  {
    DispatchAll(b, EventItems(b.outbox, DueIds(b.outbox, b.now, 0, EVENT_BATCH)), fates)
  }

  // ----- dispatchBatch and deliver -----

  /** What became of one webhook: was a request made, the response status if one came, and did the UPDATE go through. */
  datatype Outcome = Outcome(requested: bool, response: Option<int>, saved: bool)

  predicate Succeeded(o: Outcome) {
    o.requested && o.response.Some? && 200 <= o.response.value < 300
  }

  function DueHooks(hooks: seq<Hook>, now: int, k: nat, limit: nat): (ids: seq<nat>)
    requires k <= |hooks|
    ensures |ids| <= limit
    ensures forall i :: 0 <= i < |ids| ==> k <= ids[i] < |hooks| && HookDue(hooks[ids[i]], now)
    ensures forall i, j :: 0 <= i < j < |ids| ==> ids[i] < ids[j]
    ensures forall m :: k <= m < |hooks| && HookDue(hooks[m], now) && m !in ids ==> |ids| == limit
    decreases |hooks| - k
  {
    if k == |hooks| || limit == 0 then []
    else if HookDue(hooks[k], now) then [k] + DueHooks(hooks, now, k + 1, limit - 1)
    else DueHooks(hooks, now, k + 1, limit)
  }

  function Picked(hooks: seq<Hook>, ids: seq<nat>): (hooks': seq<Hook>)
    ensures |hooks'| == |hooks|
  {
    seq(|hooks|, k requires 0 <= k < |hooks| => if k in ids then hooks[k].(status := InFlight) else hooks[k])
  }

  function Parcels(hooks: seq<Hook>, ids: seq<nat>): (items: seq<Parcel>)
    requires forall i :: 0 <= i < |ids| ==> ids[i] < |hooks|
    ensures |items| == |ids|
    ensures forall i :: 0 <= i < |ids| ==> items[i] == Parcel(ids[i], hooks[ids[i]].attempt)
  {
    seq(|ids|, i requires 0 <= i < |ids| => Parcel(ids[i], hooks[ids[i]].attempt))
  }

  function Delivered(hooks: seq<Hook>, it: Parcel, o: Outcome, now: int): (hooks': seq<Hook>)
    requires it.id < |hooks|
    ensures |hooks'| == |hooks|
  {
    var h := hooks[it.id].(posted := hooks[it.id].posted + if o.requested then 1 else 0);
    hooks[it.id := if o.saved && h.status == InFlight then Settled(h, it.attempt, Succeeded(o), now) else h]
  }

  /**
   A 2xx delivers; any other outcome waits 2, 4, ... 128 seconds, and the eighth is the last. A lost UPDATE
   leaves the row as it was.
   */
  lemma DeliverOutcome(hooks: seq<Hook>, it: Parcel, o: Outcome, now: int)
    requires it.id < |hooks| && hooks[it.id].status == InFlight && hooks[it.id].attempt == it.attempt <= 7
    ensures forall k :: 0 <= k < |hooks| && k != it.id ==> Delivered(hooks, it, o, now)[k] == hooks[k]
    ensures
      var h, h' := hooks[it.id], Delivered(hooks, it, o, now)[it.id];
      && h'.posted == h.posted + (if o.requested then 1 else 0)
      && h'.endpoint == h.endpoint && h'.event == h.event && h'.entry == h.entry
      && (!o.saved ==> h'.status == InFlight && h'.attempt == h.attempt && h'.nextAt == h.nextAt)
      && (o.saved ==> h'.attempt == h.attempt + 1)
      && (o.saved && Succeeded(o) ==> h'.status == HookDelivered)
      && (o.saved && !Succeeded(o) && h.attempt == 7 ==> h'.status == HookDead)
      && (o.saved && !Succeeded(o) && h.attempt < 7 ==>
            h'.status == HookPending && h'.nextAt == now + Pow2(h.attempt + 1))
  {
  }

  function DeliverAll(hooks: seq<Hook>, items: seq<Parcel>, outcomes: seq<Outcome>, now: int): (hooks': seq<Hook>)
    requires |items| <= |outcomes| && forall i :: 0 <= i < |items| ==> items[i].id < |hooks|
    ensures |hooks'| == |hooks|
  {
    if items == [] then hooks
    else
      var n := |items| - 1;
      Delivered(DeliverAll(hooks, items[..n], outcomes, now), items[n], outcomes[n], now)
  }

  // ----- What one dispatch amounts to -----

  predicate DistinctItems(items: seq<Item>) {
    forall i, j :: 0 <= i < j < |items| ==> items[i].id != items[j].id
  }

  lemma RecordTimesFrame(b: Accounts, e: OperationEvent, copies: nat)
    ensures
      var b' := RecordTimes(b, e, copies);
      && b'.outbox == b.outbox && b'.now == b.now && b'.endpoints == b.endpoints
      && b'.ledger == (if copies > 0 then Recorded(b.ledger, e) else b.ledger)
  {
    if copies > 0 {
      RecordIdempotent(b, e, copies);
    }
  }

  /** Rows outside the batch are left alone. */
  lemma {:induction false} DispatchFrame(b: Accounts, items: seq<Item>, fates: seq<Fate>, id: nat)
    requires |items| <= |fates| && id < |b.outbox| && forall i :: 0 <= i < |items| ==> items[i].id != id
    ensures
      var b' := DispatchAll(b, items, fates);
      |b'.outbox| == |b.outbox| && b'.outbox[id] == b.outbox[id] && b'.now == b.now
  {
    if items != [] {
      var n := |items| - 1;
      DispatchFrame(b, items[..n], fates, id);
      RecordTimesFrame(DispatchAll(b, items[..n], fates), items[n].event, fates[n].copies);
    }
  }

  /** A row of the batch becomes DELIVERED exactly when its own reply was a 2xx and the UPDATE went through. */
  lemma {:induction false} DispatchDecides(b: Accounts, items: seq<Item>, fates: seq<Fate>, j: nat)
    requires |items| <= |fates| && j < |items| && DistinctItems(items) && items[j].id < |b.outbox|
    ensures
      var row, row' := b.outbox[items[j].id], DispatchAll(b, items, fates).outbox;
      && |row'| == |b.outbox|
      && row'[items[j].id] == (if !fates[j].saved then row
                               else if Confirmed(items[j].event, fates[j]) then MarkDelivered(row)
                               else MarkFailed(row, items[j].attempt, b.now))
  {
    var n := |items| - 1;
    var b1 := DispatchAll(b, items[..n], fates);
    RecordTimesFrame(b1, items[n].event, fates[n].copies);
    if j == n {
      DispatchFrame(b, items[..n], fates, items[n].id);
    } else {
      DispatchDecides(b, items[..n], fates, j);
    }
  }

  predicate Reaches(items: seq<Item>, fates: seq<Fate>, key: string)
    requires |items| <= |fates|
  {
    exists j :: 0 <= j < |items| && items[j].event.key == key && Acceptable(items[j].event) && fates[j].copies > 0
  }

  lemma RecordedKnows(ledger: seq<Entry>, e: OperationEvent, key: string)
    ensures Known(Recorded(ledger, e), key) <==> Known(ledger, key) || (Acceptable(e) && e.key == key)
  {
    var after := Recorded(ledger, e);
    if i :| 0 <= i < |ledger| && ledger[i].key == key {
      assert after[i].key == key;
    }
    if Fresh(ledger, e) {
      assert after[|ledger|].key == e.key;
    }
  }

  /** The ledger gains exactly the keys of acceptable events that arrived at least once, replies or not. */
  lemma {:induction false} DispatchRecords(b: Accounts, items: seq<Item>, fates: seq<Fate>, key: string)
    requires |items| <= |fates|
    ensures Known(DispatchAll(b, items, fates).ledger, key) <==> Known(b.ledger, key) || Reaches(items, fates, key)
  {
    if items != [] {
      var n := |items| - 1;
      var b1 := DispatchAll(b, items[..n], fates);
      DispatchRecords(b, items[..n], fates, key);
      RecordTimesFrame(b1, items[n].event, fates[n].copies);
      RecordedKnows(b1.ledger, items[n].event, key);
      ReachesSplit(items, fates, key);
    }
  }

  lemma ReachesSplit(items: seq<Item>, fates: seq<Fate>, key: string)
    requires items != [] && |items| <= |fates|
    ensures
      var n := |items| - 1;
      Reaches(items, fates, key)
      <==> Reaches(items[..n], fates, key)
           || (items[n].event.key == key && Acceptable(items[n].event) && fates[n].copies > 0)
  {
    var n := |items| - 1;
    if j :| 0 <= j < n && items[j].event.key == key && Acceptable(items[j].event) && fates[j].copies > 0 {
      assert items[..n][j] == items[j] && fates[j] == fates[j];
    }
    if Reaches(items[..n], fates, key) {
      var j :| 0 <= j < n && items[..n][j].event.key == key && Acceptable(items[..n][j].event) && fates[j].copies > 0;
      assert items[j].event.key == key && fates[j].copies > 0;
    }
  }
}
