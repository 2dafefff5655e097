/**
 The tables of the accounting pipeline: operations.event_outbox with its delivery columns, the usage
 ledger, webhook endpoints and usage.webhook_outbox. A row's id is its position in the table, which is
 also the order of created_at. `entry`, `posted` and `backoff` of a webhook row are not columns: they
 remember which ledger entry caused the row, how often it was posted, and the back-off scheduled so far.
 */
module Usage {
  import opened Domain

  datatype OperationEvent = OperationEvent(key: string, kind: string, operation: string, tenant: string, units: nat)

  datatype OutboxRow = OutboxRow(event: OperationEvent, delivered: bool, attempt: nat, nextAt: int)

  datatype Entry = Entry(tenant: string, operation: string, key: string, units: nat)

  datatype Endpoint = Endpoint(id: string, tenant: string, enabled: bool)

  datatype HookStatus = HookPending | InFlight | HookDelivered | HookDead

  datatype Hook = Hook(
    endpoint: string, event: OperationEvent, entry: nat, status: HookStatus, attempt: nat, nextAt: int, posted: nat,
        backoff: nat)

  /** What the outbox dispatcher's SELECT reads of one row. */
  datatype Item = Item(id: nat, event: OperationEvent, attempt: nat)

  /** What the webhook dispatcher's UPDATE returns of one row. */
  datatype Parcel = Parcel(id: nat, attempt: nat)

  const EVENT_BATCH := 20
  const HOOK_BATCH := 20
  const HOOK_ATTEMPTS := 8

  predicate InOutbox(outbox: seq<OutboxRow>, key: string) {
    exists i :: 0 <= i < |outbox| && outbox[i].event.key == key
  }

  predicate Due(row: OutboxRow, now: int) {
    !row.delivered && row.nextAt <= now
  }

  predicate HookDue(h: Hook, now: int) {
    h.status == HookPending && h.nextAt <= now
  }

  function Least(a: int, b: int): int {
    if a <= b then a else b
  }

  /** UPDATE ... SET status='DELIVERED',attempt=attempt+1 WHERE id=$1 */
  function MarkDelivered(row: OutboxRow): OutboxRow {
    row.(delivered := true, attempt := row.attempt + 1)
  }

  /**
   UPDATE ... SET attempt=attempt+1,next_attempt_at=... WHERE id=$1, whatever the row's status is by now;
   `read` is stale.
   */
  function MarkFailed(row: OutboxRow, read: nat, now: int): OutboxRow {
    row.(attempt := row.attempt + 1, nextAt := now + Pow2(Least(read + 1, 8)))
  }

  // ----- recordEvent -----

  predicate Acceptable(e: OperationEvent) {
    e.key != "" && e.operation != "" && e.tenant != ""
  }

  predicate Known(ledger: seq<Entry>, key: string) {
    exists i :: 0 <= i < |ledger| && ledger[i].key == key
  }

  function EntryOf(e: OperationEvent): Entry {
    Entry(e.tenant, e.operation, e.key, e.units)
  }

  predicate Fresh(ledger: seq<Entry>, e: OperationEvent) {
    Acceptable(e) && !Known(ledger, e.key)
  }

  /** INSERT INTO usage.ledger ... ON CONFLICT(event_key) DO NOTHING */
  function Recorded(ledger: seq<Entry>, e: OperationEvent): seq<Entry> {
    if Fresh(ledger, e) then ledger + [EntryOf(e)] else ledger
  }

  predicate Listens(p: Endpoint, tenant: string) {
    p.tenant == tenant && p.enabled
  }

  /**
   INSERT INTO usage.webhook_outbox ... SELECT ... FROM usage.webhook_endpoints WHERE tenant_id=$1 AND
   enabled=true
   */
  function HooksFor(endpoints: seq<Endpoint>, e: OperationEvent, entry: nat, now: int): seq<Hook> {
    if endpoints == [] then []
    else
      var before, last := HooksFor(endpoints[..|endpoints| - 1], e, entry, now), endpoints[|endpoints| - 1];
      if Listens(last, e.tenant) then before + [Hook(last.id, e, entry, HookPending, 0, now, 0, 0)] else before
  }

  predicate DistinctIds(endpoints: seq<Endpoint>) {
    forall i, j :: 0 <= i < j < |endpoints| ==> endpoints[i].id != endpoints[j].id
  }

  /** The endpoints enabled for the tenant. */
  function Audience(endpoints: seq<Endpoint>, tenant: string): set<string> {
    set i | 0 <= i < |endpoints| && endpoints[i].tenant == tenant && endpoints[i].enabled :: endpoints[i].id
  }

  function Recipients(hooks: seq<Hook>): set<string> {
    set i | 0 <= i < |hooks| :: hooks[i].endpoint
  }

  /** One pending row for each endpoint enabled for the tenant, none for any other, none twice. */
  lemma {:induction false} FanOutExactly(endpoints: seq<Endpoint>, e: OperationEvent, entry: nat, now: int)
    requires DistinctIds(endpoints)
    ensures
      var hooks := HooksFor(endpoints, e, entry, now);
      && Recipients(hooks) == Audience(endpoints, e.tenant)
      && (forall i, j :: 0 <= i < j < |hooks| ==> hooks[i].endpoint != hooks[j].endpoint)
      && (forall i :: 0 <= i < |hooks| ==> hooks[i] == Hook(hooks[i].endpoint, e, entry, HookPending, 0, now, 0, 0))
  {
    if endpoints != [] {
      var n := |endpoints| - 1;
      FanOutExactly(endpoints[..n], e, entry, now);
      var before, last := HooksFor(endpoints[..n], e, entry, now), endpoints[n];
      assert Audience(endpoints, e.tenant)
          == Audience(endpoints[..n], e.tenant) + if Listens(last, e.tenant) then {last.id} else {};
      assert last.id !in Audience(endpoints[..n], e.tenant);
      assert forall i :: 0 <= i < |before| ==> before[i].endpoint in Recipients(before);
      if Listens(last, e.tenant) {
        RecipientsAdd(before, Hook(last.id, e, entry, HookPending, 0, now, 0, 0));
      }
    }
  }

  lemma RecipientsAdd(hooks: seq<Hook>, h: Hook)
    ensures Recipients(hooks + [h]) == Recipients(hooks) + {h.endpoint}
  {
    var all := hooks + [h];
    assert all[|hooks|] == h;
    assert forall i :: 0 <= i < |hooks| ==> all[i] == hooks[i];
  }

  // ----- deliver -----

  /** What deliver writes to its row after `read` earlier attempts. */
  function Settled(h: Hook, read: nat, ok: bool, now: int): Hook {
    if ok then h.(status := HookDelivered, attempt := h.attempt + 1)
    else if read + 1 >= HOOK_ATTEMPTS then h.(status := HookDead, attempt := read + 1)
    else
      var delay := Pow2(Least(read + 1, 8));
      h.(status := HookPending, attempt := read + 1, nextAt := now + delay, backoff := h.backoff + delay)
  }

  // ----- sums -----

  /** Whose units a sum over the ledger adds up. */
  datatype Account = OfTenant(tenant: string) | OfOperation(operation: string)

  predicate Concerns(a: Account, tenant: string, operation: string) {
    match a
    case OfTenant(t) => tenant == t
    case OfOperation(o) => operation == o
  }

  /** SELECT COALESCE(sum(units),0) FROM usage.ledger WHERE ... */
  function Total(ledger: seq<Entry>, a: Account): nat {
    if ledger == [] then 0
    else
      var last := ledger[|ledger| - 1];
      Total(ledger[..|ledger| - 1], a) + if Concerns(a, last.tenant, last.operation) then last.units else 0
  }
}
