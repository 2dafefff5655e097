/**
 The accounting pipeline as an interleaving machine: any number of processes dispatch the event outbox
 and any number dispatch webhooks, each with the batch it once read; a posted event reaches the usage
 service any number of times and in any order, or never; replies are lost at will, processes die, and
 an UPDATE whose error is ignored may not happen.
 */
module Accounting {
  import opened Usage

  /** `items[0]` is about to be posted; posted as request number `request`; its reply is being recorded. */
  datatype Dispatcher =
    | Sending(items: seq<Item>)
    | Awaiting(items: seq<Item>, request: nat)
    | Answered(items: seq<Item>, ok: bool)

  /**
   `items[0]` is about to be posted; it was posted, or no request could be made, and the outcome is about to
   be recorded.
   */
  datatype Courier =
    | Carrying(items: seq<Parcel>)
    | Outcome(items: seq<Parcel>, posted: bool)

  /**
   `posts` logs the requests made, `accepted` those recordEvent answered with 202, `audiences` who listened
   to each entry.
   */
  datatype State = State(
    now: int,
    outbox: seq<OutboxRow>,
    dispatchers: map<nat, Dispatcher>,
    posts: seq<OperationEvent>,
    accepted: set<nat>,
    ledger: seq<Entry>,
    audiences: seq<set<string>>,
    endpoints: seq<Endpoint>,
    hooks: seq<Hook>,
    couriers: map<nat, Courier>)

  ghost predicate IsInit(s: State) {
    && s.outbox == [] && s.dispatchers == map[] && s.posts == [] && s.accepted == {} && s.ledger == []
    && s.audiences == [] && s.hooks == [] && s.couriers == map[] && DistinctIds(s.endpoints)
  }

  // ----- insertEvent and dispatchEventBatch -----

  predicate CanAddEvent(s: State, e: OperationEvent) {
    !InOutbox(s.outbox, e.key) && e.units == 1
  }

  function DoAddEvent(s: State, e: OperationEvent): State {
    s.(outbox := s.outbox + [OutboxRow(e, false, 0, s.now)])
  }

  /** SELECT ... WHERE status='PENDING' AND next_attempt_at<=now() ORDER BY created_at LIMIT 20 */
  predicate EventBatch(s: State, ids: seq<nat>) {
    && |ids| <= EVENT_BATCH
    && (forall i :: 0 <= i < |ids| ==> ids[i] < |s.outbox| && Due(s.outbox[ids[i]], s.now))
    && (forall i, j :: 0 <= i < j < |ids| ==> ids[i] < ids[j])
    && (forall k :: 0 <= k < |s.outbox| && Due(s.outbox[k], s.now) && k !in ids ==>
          |ids| == EVENT_BATCH && ids[EVENT_BATCH - 1] < k)
  }

  function ItemOf(outbox: seq<OutboxRow>, id: nat): Item
    requires id < |outbox|
  {
    Item(id, outbox[id].event, outbox[id].attempt)
  }

  predicate CanSelect(s: State, d: nat, ids: seq<nat>) {
    d !in s.dispatchers && EventBatch(s, ids)
  }

  function DoSelect(s: State, d: nat, ids: seq<nat>): State
    requires CanSelect(s, d, ids)
  {
    s.(dispatchers := s.dispatchers[d := Sending(seq(|ids|, i requires 0 <= i < |ids| => ItemOf(s.outbox, ids[i])))])
  }

  predicate CanPost(s: State, d: nat) {
    d in s.dispatchers && s.dispatchers[d].Sending? && s.dispatchers[d].items != []
  }

  /** POST /internal/events; `sent` is false when no request could be made. */
  function DoPost(s: State, d: nat, sent: bool): State
    requires CanPost(s, d)
  {
    var items := s.dispatchers[d].items;
    if !sent then s.(dispatchers := s.dispatchers[d := Answered(items, false)])
    else
      s.(posts := s.posts + [items[0].event],
         dispatchers := s.dispatchers[d := Awaiting(items, |s.posts|)])
  }

  predicate CanReply(s: State, d: nat, ok: bool) {
    d in s.dispatchers && s.dispatchers[d].Awaiting? && (ok ==> s.dispatchers[d].request in s.accepted)
  }

  function DoReply(s: State, d: nat, ok: bool): State
    requires CanReply(s, d, ok)
  {
    s.(dispatchers := s.dispatchers[d := Answered(s.dispatchers[d].items, ok)])
  }

  predicate CanSave(s: State, d: nat) {
    && d in s.dispatchers && s.dispatchers[d].Answered? && s.dispatchers[d].items != []
    && s.dispatchers[d].items[0].id < |s.outbox|
  }

  function DoSave(s: State, d: nat, saved: bool): State
    requires CanSave(s, d)
  {
    var x := s.dispatchers[d];
    var it := x.items[0];
    var s' := s.(dispatchers := s.dispatchers[d := Sending(x.items[1..])]);
    if !saved then s'
    else
      var row := s.outbox[it.id];
      s'.(outbox := s.outbox[it.id := if x.ok then MarkDelivered(row) else MarkFailed(row, it.attempt, s.now)])
  }

  function DoQuit(s: State, d: nat): State {
    s.(dispatchers := s.dispatchers - {d})
  }

  // ----- recordEvent -----

  predicate CanReceive(s: State, r: nat) {
    r < |s.posts|
  }

  /**
   Request `r` reaches the usage service (again): ledger and webhook rows in one transaction, then 202; 400
   if a field is empty.
   */
  function DoReceive(s: State, r: nat): State
    requires CanReceive(s, r)
  {
    var e := s.posts[r];
    if !Acceptable(e) then s
    else if Known(s.ledger, e.key) then s.(accepted := s.accepted + {r})
    else
      s.(accepted := s.accepted + {r},
         ledger := Recorded(s.ledger, e),
         audiences := s.audiences + [Audience(s.endpoints, e.tenant)],
         hooks := s.hooks + HooksFor(s.endpoints, e, |s.ledger|, s.now))
  }

  predicate CanSetEndpoints(endpoints: seq<Endpoint>) {
    DistinctIds(endpoints)
  }

  function DoSetEndpoints(s: State, endpoints: seq<Endpoint>): State {
    s.(endpoints := endpoints)
  }

  // ----- dispatchBatch and deliver -----

  /** Rows another picker has locked are skipped, so the batch is any few due rows, each once. */
  predicate CanPick(s: State, c: nat, ids: seq<nat>) {
    && c !in s.couriers && |ids| <= HOOK_BATCH
    && (forall i :: 0 <= i < |ids| ==> ids[i] < |s.hooks| && HookDue(s.hooks[ids[i]], s.now))
    && (forall i, j :: 0 <= i < j < |ids| ==> ids[i] != ids[j])
  }

  function DoPick(s: State, c: nat, ids: seq<nat>): State
    requires CanPick(s, c, ids)
  {
    s.(hooks := seq(|s.hooks|, k requires 0 <= k < |s.hooks| =>
                      if k in ids then s.hooks[k].(status := InFlight) else s.hooks[k]),
       couriers := s.couriers[c := Carrying(seq(|ids|, i requires 0 <= i < |ids| =>
                                                  Parcel(ids[i], s.hooks[ids[i]].attempt)))])
  }

  predicate Carries(s: State, c: nat) {
    c in s.couriers && s.couriers[c].items != [] && s.couriers[c].items[0].id < |s.hooks|
  }

  predicate CanSend(s: State, c: nat) {
    Carries(s, c) && s.couriers[c].Carrying?
  }

  function DoSend(s: State, c: nat, posted: bool): State
    requires CanSend(s, c)
  {
    var id := s.couriers[c].items[0].id;
    s.(hooks := s.hooks[id := s.hooks[id].(posted := s.hooks[id].posted + if posted then 1 else 0)],
       couriers := s.couriers[c := Outcome(s.couriers[c].items, posted)])
  }

  predicate CanSettle(s: State, c: nat, ok: bool) {
    Carries(s, c) && s.couriers[c].Outcome? && (ok ==> s.couriers[c].posted)
  }

  /** UPDATE ... WHERE id=$1 AND status='IN_FLIGHT'; its error is ignored (`saved` is false then). */
  function DoSettle(s: State, c: nat, ok: bool, saved: bool): State
    requires CanSettle(s, c, ok)
  {
    var it := s.couriers[c].items[0];
    var s' := s.(couriers := s.couriers[c := Carrying(s.couriers[c].items[1..])]);
    if saved && s.hooks[it.id].status == InFlight then
      s'.(hooks := s.hooks[it.id := Settled(s.hooks[it.id], it.attempt, ok, s.now)])
    else s'
  }

  function DoDie(s: State, c: nat): State {
    s.(couriers := s.couriers - {c})
  }

  // ----- steps and runs -----

  datatype EventStep =
    | StAddEvent(e: OperationEvent)
    | StSelect(d: nat, ids: seq<nat>)
    | StPost(d: nat, sent: bool)
    | StReply(d: nat, ok: bool)
    | StSave(d: nat, saved: bool)
    | StQuit(d: nat)
    | StReceive(r: nat)

  predicate EventNext(s: State, step: EventStep, s': State) {
    match step
    case StAddEvent(e) => CanAddEvent(s, e) && s' == DoAddEvent(s, e)
    case StSelect(d, ids) => CanSelect(s, d, ids) && s' == DoSelect(s, d, ids)
    case StPost(d, sent) => CanPost(s, d) && s' == DoPost(s, d, sent)
    case StReply(d, ok) => CanReply(s, d, ok) && s' == DoReply(s, d, ok)
    case StSave(d, saved) => CanSave(s, d) && s' == DoSave(s, d, saved)
    case StQuit(d) => s' == DoQuit(s, d)
    case StReceive(r) => CanReceive(s, r) && s' == DoReceive(s, r)
  }

  datatype HookStep =
    | StPick(c: nat, ids: seq<nat>)
    | StSend(c: nat, posted: bool)
    | StSettle(c: nat, ok: bool, saved: bool)
    | StDie(c: nat)
    | StSetEndpoints(endpoints: seq<Endpoint>)
    | StPass(elapsed: nat)

  predicate HookNext(s: State, step: HookStep, s': State) {
    match step
    case StPick(c, ids) => CanPick(s, c, ids) && s' == DoPick(s, c, ids)
    case StSend(c, posted) => CanSend(s, c) && s' == DoSend(s, c, posted)
    case StSettle(c, ok, saved) => CanSettle(s, c, ok) && s' == DoSettle(s, c, ok, saved)
    case StDie(c) => s' == DoDie(s, c)
    case StSetEndpoints(endpoints) => CanSetEndpoints(endpoints) && s' == DoSetEndpoints(s, endpoints)
    case StPass(elapsed) => s' == s.(now := s.now + elapsed)
  }

  datatype Step = ByEvent(event: EventStep) | ByHook(hook: HookStep)

  ghost predicate Next(s: State, step: Step, s': State) {
    match step
    case ByEvent(x) => EventNext(s, x, s')
    case ByHook(x) => HookNext(s, x, s')
  }

  ghost predicate Run(trace: seq<State>, steps: seq<Step>) {
    && |trace| == |steps| + 1
    && IsInit(trace[0])
    && (forall i :: 0 <= i < |steps| ==> Next(trace[i], steps[i], trace[i + 1]))
  }
}
