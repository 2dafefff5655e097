/**
 Webhook rows in every run of the pipeline: who gets one, how many dispatchers hold it, how often it is
 posted and how long its back-off may add up to.
 */
module Webhooks {
  import opened Domain
  import opened Usage
  import opened Accounting

  /** Back-off scheduled after `attempt` failures: 2 + 4 + ... + 2^attempt seconds. */
  function BackoffAfter(attempt: nat): int {
    Pow2(attempt + 1) - 2
  }

  predicate RowSound(h: Hook) {
    match h.status
    case HookPending => h.attempt <= 7 && h.posted <= h.attempt && h.backoff == BackoffAfter(h.attempt)
    case InFlight => h.attempt <= 7 && h.posted <= h.attempt + 1 && h.backoff == BackoffAfter(h.attempt)
    case HookDelivered => 1 <= h.attempt <= 8 && 1 <= h.posted <= h.attempt && h.backoff == BackoffAfter(h.attempt - 1)
    case HookDead => h.attempt == 8 && h.posted <= 8 && h.backoff == BackoffAfter(7)
  }

  /** A courier's rows are in flight at the attempt it read; those not yet posted in this attempt say so. */
  ghost predicate Holds(hooks: seq<Hook>, x: Courier) {
    forall p :: 0 <= p < |x.items| ==>
      && x.items[p].id < |hooks|
      && hooks[x.items[p].id].status == InFlight
      && hooks[x.items[p].id].attempt == x.items[p].attempt
      && (p > 0 || x.Carrying? ==> hooks[x.items[p].id].posted <= x.items[p].attempt)
      && (p == 0 && x.Outcome? && x.posted ==> hooks[x.items[p].id].posted >= 1)
  }

  predicate Distinct(items: seq<Parcel>) {
    forall p, q :: 0 <= p < q < |items| ==> items[p].id != items[q].id
  }

  predicate Has(items: seq<Parcel>, id: nat) {
    exists p :: 0 <= p < |items| && items[p].id == id
  }

  ghost predicate HeldOnce(s: State) {
    && (forall c :: c in s.couriers ==> Distinct(s.couriers[c].items) && Holds(s.hooks, s.couriers[c]))
    && (forall c, d, id :: c in s.couriers && d in s.couriers ==>
          (Has(s.couriers[c].items, id) && Has(s.couriers[d].items, id) ==> c == d))
  }

  ghost predicate RowsSound(s: State) {
    forall k :: 0 <= k < |s.hooks| ==> RowSound(s.hooks[k])
  }

  ghost predicate Sound(s: State) {
    RowsSound(s) && HeldOnce(s)
  }

  // ----- Preservation -----

  lemma Pow2Eight()
    ensures Pow2(7) == 128 && Pow2(8) == 256
  {
    Pow2Values();
    assert Pow2(7) == 2 * Pow2(6);
  }

  lemma SettledSound(h: Hook, read: nat, ok: bool, now: int)
    requires RowSound(h) && h.status == InFlight && read == h.attempt && (ok ==> h.posted >= 1)
    ensures RowSound(Settled(h, read, ok, now))
  {
    assert Pow2(read + 2) == 2 * Pow2(read + 1);
  }

  /** A courier other than the one that moved keeps its rows when those are left alone. */
  lemma HoldsStays(hooks: seq<Hook>, hooks': seq<Hook>, x: Courier)
    requires Holds(hooks, x) && |hooks| <= |hooks'|
    requires forall id: nat :: id < |hooks| && Has(x.items, id) ==> hooks'[id] == hooks[id]
    ensures Holds(hooks', x)
  {
    forall p | 0 <= p < |x.items|
      ensures hooks'[x.items[p].id] == hooks[x.items[p].id]
    {
      assert Has(x.items, x.items[p].id);
    }
  }

  /** Nobody holds a due row, so picking leaves every courier's rows alone. */
  lemma PickLeavesHeld(s: State, c: nat, ids: seq<nat>, s': State, d: nat)
    requires HeldOnce(s) && CanPick(s, c, ids) && s' == DoPick(s, c, ids) && d in s.couriers
    ensures Holds(s'.hooks, s.couriers[d])
    ensures forall i :: 0 <= i < |ids| ==> !Has(s.couriers[d].items, ids[i])
  {
    HeldNotDue(s, d);
    HoldsStays(s.hooks, s'.hooks, s.couriers[d]);
  }

  lemma PickHolds(s: State, c: nat, ids: seq<nat>, s': State)
    requires RowsSound(s) && CanPick(s, c, ids) && s' == DoPick(s, c, ids)
    ensures RowsSound(s') && Holds(s'.hooks, s'.couriers[c]) && Distinct(s'.couriers[c].items)
    ensures forall id :: Has(s'.couriers[c].items, id) ==> id in ids
  {
    var x := s'.couriers[c];
    forall p | 0 <= p < |x.items|
      ensures x.items[p] == Parcel(ids[p], s.hooks[ids[p]].attempt)
      ensures s'.hooks[ids[p]] == s.hooks[ids[p]].(status := InFlight)
    {
      assert ids[p] in ids;
    }
  }

  lemma PickSound(s: State, c: nat, ids: seq<nat>, s': State)
    requires Sound(s) && CanPick(s, c, ids) && s' == DoPick(s, c, ids)
    ensures Sound(s')
  {
    PickHolds(s, c, ids, s');
    forall d | d in s.couriers
      ensures Holds(s'.hooks, s.couriers[d])
      ensures forall i :: 0 <= i < |ids| ==> !Has(s.couriers[d].items, ids[i])
    {
      PickLeavesHeld(s, c, ids, s', d);
    }
  }

  lemma HeldNotDue(s: State, d: nat)
    requires HeldOnce(s) && d in s.couriers
    ensures forall id: nat :: Has(s.couriers[d].items, id) ==> id < |s.hooks| && s.hooks[id].status == InFlight
  {
    assert Holds(s.hooks, s.couriers[d]);
  }

  lemma SendSound(s: State, c: nat, posted: bool, s': State)
    requires Sound(s) && CanSend(s, c) && s' == DoSend(s, c, posted)
    ensures Sound(s')
  {
    var items := s.couriers[c].items;
    assert Holds(s.hooks, s.couriers[c]) && Distinct(items);
    assert Has(items, items[0].id);
    forall d | d in s.couriers && d != c
      ensures Holds(s'.hooks, s.couriers[d])
    {
      HoldsStays(s.hooks, s'.hooks, s.couriers[d]);
    }
  }

  lemma SettleSound(s: State, c: nat, ok: bool, saved: bool, s': State)
    requires Sound(s) && CanSettle(s, c, ok) && s' == DoSettle(s, c, ok, saved)
    ensures Sound(s')
  {
    var items := s.couriers[c].items;
    assert Holds(s.hooks, s.couriers[c]) && Distinct(items);
    assert Has(items, items[0].id);
    SettledSound(s.hooks[items[0].id], items[0].attempt, ok, s.now);
    forall d | d in s.couriers && d != c
      ensures Holds(s'.hooks, s.couriers[d])
    {
      HoldsStays(s.hooks, s'.hooks, s.couriers[d]);
    }
    forall id | Has(items[1..], id)
      ensures Has(items, id)
    {
      var p :| 0 <= p < |items[1..]| && items[1..][p].id == id;
      assert items[p + 1].id == id;
    }
    assert Holds(s'.hooks, Carrying(items[1..]));
  }

  lemma FewerCouriers(s: State, c: nat, s': State)
    requires Sound(s) && s' == DoDie(s, c)
    ensures Sound(s')
  {
  }

  lemma ReceiveSound(s: State, r: nat, s': State)
    requires Sound(s) && DistinctIds(s.endpoints) && CanReceive(s, r) && s' == DoReceive(s, r)
    ensures Sound(s')
  {
    var e := s.posts[r];
    FanOutExactly(s.endpoints, e, |s.ledger|, s.now);
    assert Pow2(1) == 2;
    forall d | d in s.couriers
      ensures Holds(s'.hooks, s.couriers[d])
    {
      HeldNotDue(s, d);
      HoldsStays(s.hooks, s'.hooks, s.couriers[d]);
    }
    forall k | 0 <= k < |s'.hooks|
      ensures RowSound(s'.hooks[k])
    {
      if k < |s.hooks| {
        assert s'.hooks[k] == s.hooks[k];
      }
    }
  }

  lemma StepSound(s: State, step: Step, s': State)
    requires Sound(s) && DistinctIds(s.endpoints) && Next(s, step, s')
    ensures Sound(s') && DistinctIds(s'.endpoints)
  {
    match step
    case ByEvent(x) => EventSound(s, x, s');
    case ByHook(StPick(c, ids)) => PickSound(s, c, ids, s');
    case ByHook(StSend(c, posted)) => SendSound(s, c, posted, s');
    case ByHook(StSettle(c, ok, saved)) => SettleSound(s, c, ok, saved, s');
    case ByHook(StDie(c)) => FewerCouriers(s, c, s');
    case ByHook(StSetEndpoints(_)) =>
    case ByHook(StPass(_)) =>
  }

  lemma EventSound(s: State, step: EventStep, s': State)
    requires Sound(s) && DistinctIds(s.endpoints) && EventNext(s, step, s')
    ensures Sound(s') && s'.endpoints == s.endpoints
  {
    if step.StReceive? {
      ReceiveSound(s, step.r, s');
    } else {
      EventLeavesHooks(s, step, s');
    }
  }

  lemma EventLeavesHooks(s: State, step: EventStep, s': State)
    requires EventNext(s, step, s') && !step.StReceive?
    ensures s'.hooks == s.hooks && s'.couriers == s.couriers && s'.endpoints == s.endpoints
    ensures s'.ledger == s.ledger && s'.audiences == s.audiences
  {
    match step
    case StAddEvent(_) =>
    case StSelect(_, _) =>
    case StPost(_, _) =>
    case StReply(_, _) =>
    case StSave(_, _) =>
    case StQuit(_) =>
  }

  lemma {:induction false} RunSound(trace: seq<State>, steps: seq<Step>, i: nat)
    requires Run(trace, steps) && i <= |steps|
    ensures Sound(trace[i]) && DistinctIds(trace[i].endpoints)
  {
    if i > 0 {
      RunSound(trace, steps, i - 1);
      StepSound(trace[i - 1], steps[i - 1], trace[i]);
    }
  }

  // ----- Fan-out over whole runs -----

  /** `w` is the webhook row of ledger entry `n` for endpoint `p`. */
  predicate Notifies(h: Hook, n: nat, p: string) {
    h.entry == n && h.endpoint == p
  }

  predicate Placed(s: State, h: Hook) {
    && h.entry < |s.ledger| && s.ledger[h.entry] == EntryOf(h.event)
    && h.entry < |s.audiences| && h.endpoint in s.audiences[h.entry]
  }

  ghost predicate AllPlaced(s: State) {
    forall w :: 0 <= w < |s.hooks| ==> Placed(s, s.hooks[w])
  }

  ghost predicate NoneTwice(hooks: seq<Hook>) {
    forall v, w :: 0 <= v < w < |hooks| ==> !Notifies(hooks[v], hooks[w].entry, hooks[w].endpoint)
  }

  ghost predicate Notified(hooks: seq<Hook>, n: nat, p: string) {
    exists w :: 0 <= w < |hooks| && Notifies(hooks[w], n, p)
  }

  ghost predicate AllNotified(s: State) {
    forall n: nat, p :: n < |s.audiences| && p in s.audiences[n] ==> Notified(s.hooks, n, p)
  }

  ghost predicate FanOutSound(s: State) {
    |s.audiences| == |s.ledger| && AllPlaced(s) && NoneTwice(s.hooks) && AllNotified(s)
  }

  predicate SameRecipients(hooks: seq<Hook>, hooks': seq<Hook>) {
    && |hooks| == |hooks'|
    && forall w :: 0 <= w < |hooks| ==>
         && hooks'[w].entry == hooks[w].entry && hooks'[w].endpoint == hooks[w].endpoint
         && hooks'[w].event == hooks[w].event
  }

  lemma HookStepsKeepRecipients(s: State, step: HookStep, s': State)
    requires HookNext(s, step, s')
    ensures SameRecipients(s.hooks, s'.hooks) && s'.ledger == s.ledger && s'.audiences == s.audiences
  {
    match step
    case StPick(_, _) =>
    case StSend(_, _) =>
    case StSettle(_, _, _) =>
    case StDie(_) =>
    case StSetEndpoints(_) =>
    case StPass(_) =>
  }

  lemma NotifiedStays(hooks: seq<Hook>, hooks': seq<Hook>, n: nat, p: string)
    requires Notified(hooks, n, p) && |hooks| <= |hooks'| && SameRecipients(hooks, hooks'[..|hooks|])
    ensures Notified(hooks', n, p)
  {
    var w :| 0 <= w < |hooks| && Notifies(hooks[w], n, p);
    assert hooks'[w] == hooks'[..|hooks|][w];
    assert Notifies(hooks'[w], n, p);
  }

  lemma SameRecipientsSound(s: State, s': State)
    requires FanOutSound(s) && SameRecipients(s.hooks, s'.hooks) && s'.ledger == s.ledger && s'.audiences == s.audiences
    ensures FanOutSound(s')
  {
    assert s'.hooks[..|s.hooks|] == s'.hooks;
    forall n: nat, p | n < |s'.audiences| && p in s'.audiences[n]
      ensures Notified(s'.hooks, n, p)
    {
      NotifiedStays(s.hooks, s'.hooks, n, p);
    }
  }

  lemma ReceiveFansOut(s: State, r: nat, s': State)
    requires FanOutSound(s) && DistinctIds(s.endpoints) && CanReceive(s, r) && s' == DoReceive(s, r)
    ensures FanOutSound(s')
  {
    if s'.ledger != s.ledger {
      var e, n := s.posts[r], |s.ledger|;
      FanOutExactly(s.endpoints, e, n, s.now);
      AppendedFanOut(s, s', HooksFor(s.endpoints, e, n, s.now), e);
    } else {
      SameRecipientsSound(s, s');
    }
  }

  lemma AppendedFanOut(s: State, s': State, added: seq<Hook>, e: OperationEvent)
    requires FanOutSound(s) && s'.hooks == s.hooks + added && s'.ledger == s.ledger + [EntryOf(e)]
    requires s'.audiences == s.audiences + [Recipients(added)]
    requires forall i :: 0 <= i < |added| ==> added[i].entry == |s.ledger| && added[i].event == e
    requires forall i, j :: 0 <= i < j < |added| ==> added[i].endpoint != added[j].endpoint
    ensures FanOutSound(s')
  {
    var n := |s.ledger|;
    assert s'.hooks[..|s.hooks|] == s.hooks;
    assert forall k :: 0 <= k < |added| ==> added[k].endpoint in Recipients(added);
    forall w | 0 <= w < |s'.hooks|
      ensures Placed(s', s'.hooks[w])
    {
      if w < |s.hooks| {
        assert Placed(s, s.hooks[w]);
      }
    }
    forall m: nat, p | m < |s'.audiences| && p in s'.audiences[m]
      ensures Notified(s'.hooks, m, p)
    {
      if m < n {
        NotifiedStays(s.hooks, s'.hooks, m, p);
      } else {
        var k :| 0 <= k < |added| && added[k].endpoint == p;
        assert Notifies(s'.hooks[|s.hooks| + k], m, p);
      }
    }
  }

  lemma {:induction false} RunFansOut(trace: seq<State>, steps: seq<Step>, i: nat)
    requires Run(trace, steps) && i <= |steps|
    ensures FanOutSound(trace[i])
  {
    if i > 0 {
      RunFansOut(trace, steps, i - 1);
      RunSound(trace, steps, i - 1);
      var s, step, s' := trace[i - 1], steps[i - 1], trace[i];
      match step
      case ByHook(x) =>
        HookStepsKeepRecipients(s, x, s');
        SameRecipientsSound(s, s');
      case ByEvent(x) =>
        if x.StReceive? {
          ReceiveFansOut(s, x.r, s');
        } else {
          EventLeavesHooks(s, x, s');
          SameRecipientsSound(s, s');
        }
    }
  }

  // ----- Results -----

  /**
   In any run: an entry has exactly one webhook row for each endpoint enabled for its tenant when it was
   recorded, and no other.
   */
  lemma OneHookPerListener(trace: seq<State>, steps: seq<Step>, i: nat, n: nat, p: string)
    requires Run(trace, steps) && i <= |steps| && n < |trace[i].ledger|
    ensures n < |trace[i].audiences|
    ensures p in trace[i].audiences[n] <==> exists w :: 0 <= w < |trace[i].hooks| && Notifies(trace[i].hooks[w], n, p)
    ensures forall v, w :: 0 <= v < w < |trace[i].hooks| && Notifies(trace[i].hooks[v], n, p) ==>
        !Notifies(trace[i].hooks[w], n, p)
  {
    RunFansOut(trace, steps, i);
    assert p in trace[i].audiences[n] ==> Notified(trace[i].hooks, n, p);
    assert forall w :: 0 <= w < |trace[i].hooks| ==> Placed(trace[i], trace[i].hooks[w]);
  }

  /**
   In any run: no two dispatchers hold one row, and a row in a dispatcher's hands is IN_FLIGHT at the attempt
   it read.
   */
  lemma HeldByAtMostOne(trace: seq<State>, steps: seq<Step>, i: nat, c: nat, d: nat, id: nat)
    requires Run(trace, steps) && i <= |steps| && c in trace[i].couriers && d in trace[i].couriers
    requires Has(trace[i].couriers[c].items, id) && Has(trace[i].couriers[d].items, id)
    ensures c == d && id < |trace[i].hooks| && trace[i].hooks[id].status == InFlight
    ensures Distinct(trace[i].couriers[c].items)
  {
    RunSound(trace, steps, i);
    HeldNotDue(trace[i], c);
  }

  /**
   In any run: a row is posted at most 8 times; while it may still be, 7 attempts at most are spent;
   DELIVERED means it was posted.
   */
  lemma PostedAtMostEight(trace: seq<State>, steps: seq<Step>, i: nat, k: nat)
    requires Run(trace, steps) && i <= |steps| && k < |trace[i].hooks|
    ensures
      var h := trace[i].hooks[k];
      && h.posted <= 8
      && (h.status in {HookPending, InFlight} ==> h.attempt <= 7)
      && (h.status == HookDelivered ==> 1 <= h.posted <= h.attempt)
      && (h.status == HookDead ==> h.attempt == 8)
  {
    RunSound(trace, steps, i);
    assert RowSound(trace[i].hooks[k]);
  }

  /** In any run: the back-off scheduled for a row is 2 + 4 + ... over its failed attempts, 254 seconds at most. */
  lemma BackoffAtMost254(trace: seq<State>, steps: seq<Step>, i: nat, k: nat)
    requires Run(trace, steps) && i <= |steps| && k < |trace[i].hooks|
    ensures trace[i].hooks[k].backoff <= 254
    ensures trace[i].hooks[k].status == HookPending ==>
        trace[i].hooks[k].backoff == Pow2(trace[i].hooks[k].attempt + 1) - 2
  {
    RunSound(trace, steps, i);
    var h := trace[i].hooks[k];
    assert RowSound(h);
    Pow2Eight();
    Pow2Monotone(if h.status == HookDelivered then h.attempt else if h.status == HookDead then 8 else h.attempt + 1, 8);
  }

  /**
   In any run: deliver's UPDATE finds its row IN_FLIGHT at the attempt that was read, and `min(attempt, 8)`
   never binds.
   */
  lemma ClampNeverBinds(trace: seq<State>, steps: seq<Step>, i: nat, c: nat, ok: bool)
    requires Run(trace, steps) && i <= |steps| && CanSettle(trace[i], c, ok)
    ensures
      var it := trace[i].couriers[c].items[0];
      && trace[i].hooks[it.id].status == InFlight && trace[i].hooks[it.id].attempt == it.attempt
      && it.attempt + 1 <= HOOK_ATTEMPTS && Least(it.attempt + 1, 8) == it.attempt + 1
  {
    RunSound(trace, steps, i);
    var x := trace[i].couriers[c];
    assert Holds(trace[i].hooks, x);
    assert RowSound(trace[i].hooks[x.items[0].id]);
  }

  /** In any run: rows that were delivered or given up are never touched again, and no row is ever removed. */
  lemma SettledForGood(trace: seq<State>, steps: seq<Step>, i: nat, k: nat)
    requires Run(trace, steps) && i < |steps| && k < |trace[i].hooks|
    ensures k < |trace[i + 1].hooks|
    ensures trace[i].hooks[k].status in {HookDelivered, HookDead} ==> trace[i + 1].hooks[k] == trace[i].hooks[k]
  {
    RunSound(trace, steps, i);
    var s, step, s' := trace[i], steps[i], trace[i + 1];
    match step
    case ByHook(StPick(_, _)) =>
    case ByHook(StSend(c, _)) => assert Holds(s.hooks, s.couriers[c]);
    case ByHook(StSettle(_, _, _)) =>
    case ByHook(_) => HookStepsKeepRecipients(s, step.hook, s');
    case ByEvent(x) =>
      if !x.StReceive? {
        EventLeavesHooks(s, x, s');
      }
  }

  // ----- Rows left behind -----

  /** A row IN_FLIGHT in nobody's hands: its dispatcher died, or its UPDATE was lost. */
  ghost predicate Orphaned(s: State, k: nat) {
    && k < |s.hooks| && s.hooks[k].status == InFlight
    && (forall c :: c in s.couriers ==> !Has(s.couriers[c].items, k))
  }

  lemma OrphanStays(s: State, step: Step, s': State, k: nat)
    requires Orphaned(s, k) && Next(s, step, s')
    ensures Orphaned(s', k) && s'.hooks[k] == s.hooks[k]
  {
    match step
    case ByEvent(x) =>
      if !x.StReceive? {
        EventLeavesHooks(s, x, s');
      }
    case ByHook(StPick(c, ids)) => assert k !in ids;
    case ByHook(StSend(c, _)) => assert Has(s.couriers[c].items, s.couriers[c].items[0].id);
    case ByHook(StSettle(c, _, _)) =>
      assert Has(s.couriers[c].items, s.couriers[c].items[0].id);
      RestHasNoMore(s.couriers[c].items, k);
    case ByHook(StDie(_)) =>
    case ByHook(StSetEndpoints(_)) =>
    case ByHook(StPass(_)) =>
  }

  lemma RestHasNoMore(items: seq<Parcel>, id: nat)
    requires items != []
    ensures Has(items[1..], id) ==> Has(items, id)
  {
    if p :| 0 <= p < |items| - 1 && items[1..][p].id == id {
      assert items[p + 1].id == id;
    }
  }

  /** In any run: such a row is never picked, posted or changed again; nothing in the pipeline recovers it. */
  lemma {:induction false} OrphanedForGood(trace: seq<State>, steps: seq<Step>, i: nat, j: nat, k: nat)
    requires Run(trace, steps) && i <= j <= |steps| && Orphaned(trace[i], k)
    ensures Orphaned(trace[j], k) && trace[j].hooks[k] == trace[i].hooks[k]
  {
    if i < j {
      OrphanedForGood(trace, steps, i, j - 1, k);
      OrphanStays(trace[j - 1], steps[j - 1], trace[j], k);
    }
  }

  /**
   The two steps that leave a row behind: a dispatcher that has it dies, or the UPDATE that would record its
   outcome is lost.
   */
  predicate Orphans(s: State, step: Step, k: nat) {
    match step
    case ByHook(StDie(c)) => c in s.couriers && Has(s.couriers[c].items, k)
    case ByHook(StSettle(c, _, saved)) =>
      !saved && c in s.couriers && s.couriers[c].items != [] && s.couriers[c].items[0].id == k
    case _ => false
  }

  /** A row in a dispatcher's hands, and in that dispatcher's only, is left behind when it lets go of it. */
  lemma LetGo(s: State, c: nat, k: nat)
    requires HeldOnce(s) && c in s.couriers && Has(s.couriers[c].items, k)
    ensures Orphaned(DoDie(s, c), k)
    ensures forall ok :: CanSettle(s, c, ok) && s.couriers[c].items[0].id == k ==>
              Orphaned(DoSettle(s, c, ok, false), k)
  {
    HeldNotDue(s, c);
    var items := s.couriers[c].items;
    assert Distinct(items);
    assert forall p :: 0 <= p < |items| - 1 ==> items[1..][p] == items[p + 1];
  }

  lemma OrphansLeaveBehind(s: State, step: Step, s': State, k: nat)
    requires HeldOnce(s) && Next(s, step, s') && Orphans(s, step, k)
    ensures Orphaned(s', k)
  {
    match step
    case ByHook(StDie(c)) => LetGo(s, c, k);
    case ByHook(StSettle(c, _, _)) =>
      assert Has(s.couriers[c].items, k);
      LetGo(s, c, k);
  }

  /** What a pick leaves IN_FLIGHT was so before, or is in the picker's hands. */
  lemma PickedIsHeld(s: State, c: nat, ids: seq<nat>, k: nat)
    requires CanPick(s, c, ids) && Orphaned(DoPick(s, c, ids), k)
    ensures Orphaned(s, k)
  {
    var s' := DoPick(s, c, ids);
    var items := s'.couriers[c].items;
    assert forall p :: 0 <= p < |ids| ==> items[p].id == ids[p];
    assert !Has(items, k);
    assert k !in ids;
    forall d | d in s.couriers
      ensures !Has(s.couriers[d].items, k)
    {
      assert s'.couriers[d] == s.couriers[d];
    }
  }

  /** A settled row is IN_FLIGHT in nobody's hands only if the UPDATE was lost, or it was so before. */
  lemma SettleOrphans(s: State, c: nat, ok: bool, saved: bool, k: nat)
    requires HeldOnce(s) && CanSettle(s, c, ok) && Orphaned(DoSettle(s, c, ok, saved), k)
    ensures Orphaned(s, k) || (!saved && s.couriers[c].items[0].id == k)
  {
    var s', items := DoSettle(s, c, ok, saved), s.couriers[c].items;
    assert Holds(s.hooks, s.couriers[c]);
    if items[0].id != k {
      forall d | d in s.couriers
        ensures !Has(s.couriers[d].items, k)
      {
        if d == c {
          assert !Has(s'.couriers[c].items, k);
          if Has(items, k) {
            RestIsAll(items, k);
          }
        } else {
          assert s'.couriers[d] == s.couriers[d];
        }
      }
    }
  }

  lemma RestIsAll(items: seq<Parcel>, id: nat)
    requires items != [] && items[0].id != id && Has(items, id)
    ensures Has(items[1..], id)
  {
    var p :| 0 <= p < |items| && items[p].id == id;
    assert items[1..][p - 1].id == id;
  }

  lemma ReceivedNotOrphaned(s: State, r: nat, k: nat)
    requires DistinctIds(s.endpoints) && CanReceive(s, r) && Orphaned(DoReceive(s, r), k)
    ensures Orphaned(s, k)
  {
    var e := s.posts[r];
    FanOutExactly(s.endpoints, e, |s.ledger|, s.now);
    assert DoReceive(s, r).couriers == s.couriers;
  }

  /** A step that leaves a row behind is one of the two. */
  lemma OnlyOrphans(s: State, step: Step, s': State, k: nat)
    requires HeldOnce(s) && DistinctIds(s.endpoints) && Next(s, step, s') && !Orphaned(s, k) && Orphaned(s', k)
    ensures Orphans(s, step, k)
  {
    match step
    case ByEvent(x) =>
      if x.StReceive? {
        ReceivedNotOrphaned(s, x.r, k);
      } else {
        EventLeavesHooks(s, x, s');
      }
    case ByHook(StPick(c, ids)) => PickedIsHeld(s, c, ids, k);
    case ByHook(StSend(c, _)) =>
      forall d | d in s.couriers
        ensures !Has(s.couriers[d].items, k)
      {
        assert s'.couriers[d].items == s.couriers[d].items;
      }
    case ByHook(StSettle(c, ok, saved)) => SettleOrphans(s, c, ok, saved, k);
    case ByHook(StDie(c)) =>
      forall d | d in s.couriers && d != c
        ensures !Has(s.couriers[d].items, k)
      {
        assert s'.couriers[d] == s.couriers[d];
      }
    case ByHook(StSetEndpoints(_)) =>
    case ByHook(StPass(_)) =>
  }

  /** In any run: a step leaves a row behind if and only if it is one of the two. */
  lemma HowOrphaned(trace: seq<State>, steps: seq<Step>, i: nat, k: nat)
    requires Run(trace, steps) && i < |steps| && !Orphaned(trace[i], k)
    ensures Orphaned(trace[i + 1], k) <==> Orphans(trace[i], steps[i], k)
  {
    RunSound(trace, steps, i);
    if Orphans(trace[i], steps[i], k) {
      OrphansLeaveBehind(trace[i], steps[i], trace[i + 1], k);
    }
    if Orphaned(trace[i + 1], k) {
      OnlyOrphans(trace[i], steps[i], trace[i + 1], k);
    }
  }

  /** In any run: a row is lost to everyone if and only if one of those steps has happened to it. */
  lemma {:induction false} OrphanedExactly(trace: seq<State>, steps: seq<Step>, i: nat, k: nat)
    requires Run(trace, steps) && i <= |steps|
    ensures Orphaned(trace[i], k) <==> exists j :: 0 <= j < i && Orphans(trace[j], steps[j], k)
  {
    if i > 0 {
      OrphanedExactly(trace, steps, i - 1, k);
      if Orphaned(trace[i - 1], k) {
        OrphanedForGood(trace, steps, i - 1, i, k);
      } else {
        HowOrphaned(trace, steps, i - 1, k);
      }
    }
  }

  // ----- A run that loses a row -----

  const EVENT := OperationEvent("k", "operation.succeeded", "o", "t", 1)

  lemma Extend(trace: seq<State>, steps: seq<Step>, step: Step, s': State)
    returns (trace': seq<State>, steps': seq<Step>)
    requires Run(trace, steps) && Next(trace[|steps|], step, s')
    ensures trace' == trace + [s'] && steps' == steps + [step] && Run(trace', steps') && trace'[|steps'|] == s'
  {
    trace', steps' := trace + [s'], steps + [step];
    forall i | 0 <= i < |steps'|
      ensures Next(trace'[i], steps'[i], trace'[i + 1])
    {
      assert i < |steps| ==> steps'[i] == steps[i] && trace'[i] == trace[i] && trace'[i + 1] == trace[i + 1];
    }
  }

  /** One event is recorded while one endpoint listens. */
  lemma OneHook() returns (trace: seq<State>, steps: seq<Step>)
    ensures Run(trace, steps)
    ensures
      var s := trace[|steps|];
      s.hooks == [Hook("p", EVENT, 0, HookPending, 0, 0, 0, 0)] && s.couriers == map[] && s.now == 0
  {
    var s0 := State(0, [], map[], [], {}, [], [], [Endpoint("p", "t", true)], [], map[]);
    var s1, s2 := DoAddEvent(s0, EVENT), DoSelect(DoAddEvent(s0, EVENT), 0, [0]);
    var s3 := DoPost(s2, 0, true);
    var s4 := DoReceive(s3, 0);
    trace, steps := [s0], [];
    trace, steps := Extend(trace, steps, ByEvent(StAddEvent(EVENT)), s1);
    trace, steps := Extend(trace, steps, ByEvent(StSelect(0, [0])), s2);
    trace, steps := Extend(trace, steps, ByEvent(StPost(0, true)), s3);
    trace, steps := Extend(trace, steps, ByEvent(StReceive(0)), s4);
  }

  /** A dispatcher picks the row and dies: a run that ends with it lost. */
  lemma RowIsLost() returns (trace: seq<State>, steps: seq<Step>)
    ensures Run(trace, steps) && Orphaned(trace[|steps|], 0)
  {
    trace, steps := OneHook();
    var s := trace[|steps|];
    var s1 := DoPick(s, 0, [0]);
    trace, steps := Extend(trace, steps, ByHook(StPick(0, [0])), s1);
    var s2 := DoDie(s1, 0);
    trace, steps := Extend(trace, steps, ByHook(StDie(0)), s2);
    assert s1.couriers[0].items[0].id == 0;
    OrphanedExactly(trace, steps, |steps|, 0);
    assert Orphans(s1, ByHook(StDie(0)), 0);
  }
}
