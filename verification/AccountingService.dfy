/** The handlers and loops of the accounting pipeline, statement by statement. */
module AccountingService {
  import opened Domain
  import opened Usage
  import opened Books

  class AccountingService {
    var now: int
    var outbox: seq<OutboxRow>
    var ledger: seq<Entry>
    var endpoints: seq<Endpoint>
    var hooks: seq<Hook>

    ghost function View(): Accounts
      reads this
    {
      Accounts(now, outbox, ledger, endpoints, hooks)
    }

    constructor (now: int, endpoints: seq<Endpoint>)
      ensures View() == Accounts(now, [], [], endpoints, [])
    {
      this.now, this.endpoints := now, endpoints;
      outbox, ledger, hooks := [], [], [];
    }

    method RecordEvent(event: OperationEvent) returns (status: int)
      modifies `ledger, `hooks
      ensures View() == Record(old(View()), event)
      ensures status == if Acceptable(event) then 202 else 400
    {
      if event.key == "" || event.operation == "" || event.tenant == "" {
        return 400;
      }
      var affected := InsertEntry(event);
      if affected > 0 {
        hooks := hooks + HooksFor(endpoints, event, |ledger| - 1, now);
      }
      return 202;
    }

    /** INSERT ... ON CONFLICT(event_key) DO NOTHING, with the number of rows it inserted. */
    method InsertEntry(event: OperationEvent) returns (affected: nat)
      modifies `ledger
      ensures affected == if Known(old(ledger), event.key) then 0 else 1
      ensures ledger == old(ledger) + if Known(old(ledger), event.key) then [] else [EntryOf(event)]
    {
      if exists i :: 0 <= i < |ledger| && ledger[i].key == event.key {
        return 0;
      }
      ledger := ledger + [EntryOf(event)];
      return 1;
    }

    /** The POST: the request arrives some number of times; the caller sees a status if a reply comes back. */
    method Post(event: OperationEvent, fate: Fate) returns (failed: bool)
      modifies `ledger, `hooks
      ensures View() == RecordTimes(old(View()), event, fate.copies)
      ensures failed <==> !Confirmed(event, fate)
    {
      failed := true;
      var arrived := 0;
      while arrived < fate.copies
        invariant arrived <= fate.copies
        invariant View() == RecordTimes(old(View()), event, arrived)
        invariant failed <==> !(arrived > 0 && fate.replied && Acceptable(event))
      {
        var status := RecordEvent(event);
        failed := !fate.replied || status < 200 || status >= 300;
        arrived := arrived + 1;
      }
    }

    /** One turn of the loop over the batch. */
    method DispatchItem(x: Item, fate: Fate)
      requires x.id < |outbox|
      modifies `outbox, `ledger, `hooks
      ensures View() == Dispatch(old(View()), x, fate)
      ensures |outbox| == |old(outbox)| && now == old(now)
    {
      RecordTimesFrame(View(), x.event, fate.copies);
      var failed := Post(x.event, fate);
      if fate.saved {
        if !failed {
          outbox := outbox[x.id := MarkDelivered(outbox[x.id])];
        } else {
          outbox := outbox[x.id := MarkFailed(outbox[x.id], x.attempt, now)];
        }
      }
    }

    method DispatchEventBatch(fates: seq<Fate>)
      requires |fates| >= EVENT_BATCH
      modifies `outbox, `ledger, `hooks
      ensures View() == DispatchBatch(old(View()), fates)
    {
      var items := EventItems(outbox, DueIds(outbox, now, 0, EVENT_BATCH));
      ghost var before := View();
      var n := 0;
      while n < |items|
        invariant n <= |items|
        invariant |outbox| == |before.outbox|
        invariant View() == DispatchAll(before, items[..n], fates)
      {
        assert items[..n + 1][..n] == items[..n];
        DispatchItem(items[n], fates[n]);
        n := n + 1;
      }
      assert items[..n] == items;
    }

    method Deliver(d: Parcel, outcome: Outcome)
      requires d.id < |hooks|
      modifies `hooks
      ensures hooks == Delivered(old(hooks), d, outcome, now)
    {
      var failed := !outcome.requested;
      if outcome.requested {
        hooks := hooks[d.id := hooks[d.id].(posted := hooks[d.id].posted + 1)];
        failed := outcome.response.None?;
        if outcome.response.Some? && (outcome.response.value < 200 || outcome.response.value >= 300) {
          failed := true;
        }
      }
      if !outcome.saved || hooks[d.id].status != InFlight {
        return;
      }
      if !failed {
        hooks := hooks[d.id := hooks[d.id].(status := HookDelivered, attempt := hooks[d.id].attempt + 1)];
        return;
      }
      var attempt := d.attempt + 1;
      if attempt >= 8 {
        hooks := hooks[d.id := hooks[d.id].(status := HookDead, attempt := attempt)];
        return;
      }
      var delay := Pow2(Least(attempt, 8));
      hooks := hooks[d.id := hooks[d.id].(
        status := HookPending, attempt := attempt, nextAt := now + delay, backoff := hooks[d.id].backoff + delay)];
    }

    method DeliverItems(items: seq<Parcel>, outcomes: seq<Outcome>)
      requires |items| <= |outcomes| && forall i :: 0 <= i < |items| ==> items[i].id < |hooks|
      modifies `hooks
      ensures hooks == DeliverAll(old(hooks), items, outcomes, now)
    {
      ghost var picked := hooks;
      var n := 0;
      while n < |items|
        invariant n <= |items|
        invariant |hooks| == |picked|
        invariant hooks == DeliverAll(picked, items[..n], outcomes, now)
      {
        assert items[..n + 1][..n] == items[..n];
        Deliver(items[n], outcomes[n]);
        n := n + 1;
      }
      assert items[..n] == items;
    }

    method DispatchHookBatch(outcomes: seq<Outcome>)
      requires |outcomes| >= HOOK_BATCH
      modifies `hooks
      ensures
        var ids := DueHooks(old(hooks), now, 0, HOOK_BATCH);
        hooks == DeliverAll(Picked(old(hooks), ids), Parcels(old(hooks), ids), outcomes, now)
    {
      var ids := DueHooks(hooks, now, 0, HOOK_BATCH);
      var items := Parcels(hooks, ids);
      hooks := Picked(hooks, ids);
      DeliverItems(items, outcomes);
    }
  }
}
