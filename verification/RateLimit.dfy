/**
 The gateway's fixed-window rate limiter: one Redis counter per tenant and unix minute, incremented by a
 script that sets a 70-second expiry on the first increment. Times are milliseconds; a request's minute
 is taken from the gateway's clock (`read`), its increment happens in Redis some time later (`at`).
 */
module RateLimit {
  import opened Keys

  datatype Hit = Hit(tenant: string, admin: bool, read: nat, at: nat)

  datatype Counter = Counter(count: nat, expires: nat)

  type Minute = (string, nat)

  type Counters = map<Minute, Counter>

  const EXPIRY := 70_000

  /** time.Now().Unix() / 60 */
  function MinuteOf(h: Hit): Minute {
    (h.tenant, h.read / 1000 / 60)
  }

  function Limit(admin: bool): nat {
    if admin then 600 else 120
  }

  /** Redis drops a key at its expiry. */
  function Live(c: Counters, k: Minute, at: nat): nat {
    if k in c && at < c[k].expires then c[k].count else 0
  }

  /** INCR, and EXPIRE when the result is 1. */
  function Incr(c: Counters, k: Minute, at: nat): Counters {
    if Live(c, k, at) == 0 then c[k := Counter(1, at + EXPIRY)]
    else c[k := Counter(c[k].count + 1, c[k].expires)]
  }

  /** The Redis key. */
  function RenderMinute(k: Minute): string {
    "rate" + (":" + (k.0 + (":" + Decimal(k.1))))
  }

  lemma MinuteKeysDistinct(j: Minute, k: Minute)
    requires Plain(j.0) && Plain(k.0) && RenderMinute(j) == RenderMinute(k)
    ensures j == k
  {
    SplitAtColon("rate", j.0 + (":" + Decimal(j.1)), "rate", k.0 + (":" + Decimal(k.1)));
    SplitAtColon(j.0, Decimal(j.1), k.0, Decimal(k.1));
    DecimalInjective(j.1, k.1);
  }

  // ----- Any sequence of requests -----

  /**
   The increments in the order Redis runs them. By Redis's clock each comes at most `lag` after the time the
   gateway read, and at most `lead` before it, when the gateway's clock is ahead.
   */
  predicate Within(hits: seq<Hit>, lead: nat, lag: nat) {
    && (forall i :: 0 <= i < |hits| ==> hits[i].read <= hits[i].at + lead && hits[i].at <= hits[i].read + lag)
    && (forall i, j :: 0 <= i < j < |hits| ==> hits[i].at <= hits[j].at)
  }

  /** What the expiry leaves over: 70 seconds for a minute. */
  const SLACK := EXPIRY - 60_000

  /** Any two requests are late and early by ten seconds together at most. */
  ghost predicate Prompt(hits: seq<Hit>) {
    exists lead: nat, lag: nat :: lead + lag <= SLACK && Within(hits, lead, lag)
  }

  function After(hits: seq<Hit>): Counters {
    if hits == [] then map[]
    else
      var last := hits[|hits| - 1];
      Incr(After(hits[..|hits| - 1]), MinuteOf(last), last.at)
  }

  /** What the script returns for request i. */
  function CountOf(hits: seq<Hit>, i: nat): nat
    requires i < |hits|
  {
    Live(After(hits[..i]), MinuteOf(hits[i]), hits[i].at) + 1
  }

  predicate Accepted(hits: seq<Hit>, i: nat)
    requires i < |hits|
  {
    CountOf(hits, i) <= Limit(hits[i].admin)
  }

  /** How many of the first n requests fall in minute k. */
  function Seen(hits: seq<Hit>, n: nat, k: Minute): nat
    requires n <= |hits|
  {
    if n == 0 then 0 else Seen(hits, n - 1, k) + if MinuteOf(hits[n - 1]) == k then 1 else 0
  }

  /** The counter outlives its minute, so it holds the number of requests seen in it. */
  lemma {:induction false} CounterExact(hits: seq<Hit>, n: nat, k: Minute, lead: nat, lag: nat)
    requires Within(hits, lead, lag) && lead + lag <= SLACK && n <= |hits|
    ensures
      var c := After(hits[..n]);
      && (k in c <==> Seen(hits, n, k) > 0)
      && (k in c ==> c[k].count == Seen(hits, n, k) && c[k].expires >= 60_000 * k.1 + EXPIRY - lead)
  {
    if n > 0 {
      CounterExact(hits, n - 1, k, lead, lag);
      assert hits[..n][..n - 1] == hits[..n - 1] && hits[..n][n - 1] == hits[n - 1];
      MinuteSpan(hits[n - 1].read);
    }
  }

  lemma MinuteSpan(read: nat)
    ensures var w := read / 1000 / 60; 60_000 * w <= read < 60_000 * w + 60_000
  {
  }

  /** The limiter is the ideal counter: request i is told it is one more than the requests of its minute before it. */
  lemma CountsExactly(hits: seq<Hit>, i: nat)
    requires Prompt(hits) && i < |hits|
    ensures CountOf(hits, i) == Seen(hits, i, MinuteOf(hits[i])) + 1
    ensures Accepted(hits, i) <==> Seen(hits, i, MinuteOf(hits[i])) < Limit(hits[i].admin)
  {
    var lead: nat, lag: nat :| lead + lag <= SLACK && Within(hits, lead, lag);
    CounterExact(hits, i, MinuteOf(hits[i]), lead, lag);
    MinuteSpan(hits[i].read);
  }

  /** Of the first n requests, those of minute k and this role that were accepted. */
  function AcceptedIn(hits: seq<Hit>, n: nat, k: Minute, admin: bool): nat
    requires n <= |hits|
  {
    if n == 0 then 0
    else
      AcceptedIn(hits, n - 1, k, admin)
      + if MinuteOf(hits[n - 1]) == k && hits[n - 1].admin == admin && Accepted(hits, n - 1) then 1 else 0
  }

  /** At most `limit` accepted requests per tenant and unix minute. */
  lemma {:induction false} AtMostLimitPerMinute(hits: seq<Hit>, n: nat, k: Minute, admin: bool)
    requires Prompt(hits) && n <= |hits|
    ensures AcceptedIn(hits, n, k, admin) <= Seen(hits, n, k)
    ensures AcceptedIn(hits, n, k, admin) <= Limit(admin)
  {
    if n > 0 {
      AtMostLimitPerMinute(hits, n - 1, k, admin);
      CountsExactly(hits, n - 1);
    }
  }

  /** Of the first n requests, the accepted ones of this tenant and role within the 60 seconds from `start`. */
  function AcceptedSince(hits: seq<Hit>, n: nat, tenant: string, admin: bool, start: nat): nat
    requires n <= |hits|
  {
    if n == 0 then 0
    else
      var h := hits[n - 1];
      AcceptedSince(hits, n - 1, tenant, admin, start)
      + if h.tenant == tenant && h.admin == admin && start <= h.read < start + 60_000 && Accepted(hits, n - 1)
        then 1 else 0
  }

  lemma {:induction false} SpanMeetsTwoMinutes(hits: seq<Hit>, n: nat, tenant: string, admin: bool, start: nat)
    requires n <= |hits|
    ensures
      var w := start / 1000 / 60;
      AcceptedSince(hits, n, tenant, admin, start)
      <= AcceptedIn(hits, n, (tenant, w), admin) + AcceptedIn(hits, n, (tenant, w + 1), admin)
  {
    if n > 0 {
      SpanMeetsTwoMinutes(hits, n - 1, tenant, admin, start);
      MinuteSpan(start);
      MinuteSpan(hits[n - 1].read);
    }
  }

  /**
   Both roles share the counter, so a tenant's administrators and customers together get the larger limit and
   no more.
   */
  lemma {:induction false} TenantPerMinute(hits: seq<Hit>, n: nat, k: Minute)
    requires Prompt(hits) && n <= |hits|
    ensures AcceptedIn(hits, n, k, true) + AcceptedIn(hits, n, k, false) <= Seen(hits, n, k)
    ensures AcceptedIn(hits, n, k, true) + AcceptedIn(hits, n, k, false) <= Limit(true)
  {
    if n > 0 {
      TenantPerMinute(hits, n - 1, k);
      CountsExactly(hits, n - 1);
    }
  }

  /** At most twice the limit in any 60-second span, by role and for the tenant as a whole. */
  lemma AtMostTwiceLimitInSpan(hits: seq<Hit>, tenant: string, admin: bool, start: nat)
    requires Prompt(hits)
    ensures AcceptedSince(hits, |hits|, tenant, admin, start) <= 2 * Limit(admin)
    ensures
      AcceptedSince(hits, |hits|, tenant, true, start) + AcceptedSince(hits, |hits|, tenant, false, start)
      <= 2 * Limit(true)
  {
    var n, w := |hits|, start / 1000 / 60;
    SpanMeetsTwoMinutes(hits, n, tenant, true, start);
    SpanMeetsTwoMinutes(hits, n, tenant, false, start);
    AtMostLimitPerMinute(hits, n, (tenant, w), admin);
    AtMostLimitPerMinute(hits, n, (tenant, w + 1), admin);
    TenantPerMinute(hits, n, (tenant, w));
    TenantPerMinute(hits, n, (tenant, w + 1));
  }

  ghost predicate AlwaysExact(lead: nat, lag: nat) {
    forall hits: seq<Hit>, i: nat :: Within(hits, lead, lag) && i < |hits| ==>
        CountOf(hits, i) == Seen(hits, i, MinuteOf(hits[i])) + 1
  }

  /** The first request of minute 1, as early as `lead` allows. */
  function Early(lead: nat): (h: Hit)
    ensures MinuteOf(h) == ("t", 1)
  {
    Hit("t", false, 60_000, 60_000 - EarlyBy(lead))
  }

  /** Its last request, late enough for the counter of the first to be gone. */
  function Late(lead: nat): (h: Hit)
    ensures MinuteOf(h) == ("t", 1)
  {
    Hit("t", false, 119_999, 60_000 - EarlyBy(lead) + EXPIRY)
  }

  function EarlyBy(lead: nat): nat {
    if lead <= SLACK then lead else SLACK + 1
  }

  /**
   Ten seconds is exactly what the expiry leaves: the count is right for every sequence of requests if and
   only if lead and lag together are no more.
   */
  lemma ExactUpToTenSeconds(lead: nat, lag: nat)
    ensures AlwaysExact(lead, lag) <==> lead + lag <= SLACK
  {
    if lead + lag <= SLACK {
      forall hits: seq<Hit>, i: nat | Within(hits, lead, lag) && i < |hits|
        ensures CountOf(hits, i) == Seen(hits, i, MinuteOf(hits[i])) + 1
      {
        CountsExactly(hits, i);
      }
    } else {
      var hits := [Early(lead), Late(lead)];
      LaterCountsAfresh(lead);
      assert Within(hits, lead, lag);
      assert Seen(hits, 1, MinuteOf(hits[1])) == Seen(hits, 0, MinuteOf(hits[1])) + 1;
    }
  }

  /** A millisecond later, the minute's counter is gone. */
  lemma LaterCountsAfresh(lead: nat)
    ensures CountOf([Early(lead), Late(lead)], 1) == 1
  {
    var first, hits := [Early(lead)], [Early(lead), Late(lead)];
    assert hits[..1] == first && first[..0] == [];
    assert After(first) == Incr(map[], MinuteOf(first[0]), first[0].at);
  }

  // ----- Exactly when the limit holds -----

  ghost predicate AlwaysLimited(lead: nat, lag: nat) {
    forall hits: seq<Hit>, k: Minute, admin: bool :: Within(hits, lead, lag) ==>
        AcceptedIn(hits, |hits|, k, admin) <= Limit(admin)
  }

  /** One request n times. */
  function Flood(h: Hit, n: nat): (hits: seq<Hit>)
    ensures |hits| == n && forall i :: 0 <= i < n ==> hits[i] == h
  {
    if n == 0 then [] else Flood(h, n - 1) + [h]
  }

  lemma {:induction false} FloodCounts(h: Hit, n: nat)
    requires n > 0
    ensures After(Flood(h, n)) == map[MinuteOf(h) := Counter(n, h.at + EXPIRY)]
  {
    assert Flood(h, n)[..n - 1] == Flood(h, n - 1) && Flood(h, n)[n - 1] == h;
    if n > 1 {
      FloodCounts(h, n - 1);
    }
  }

  /** A request after i of these is told i + 1. */
  lemma CountInFlood(hits: seq<Hit>, h: Hit, i: nat)
    requires i < |hits| && hits[..i + 1] == Flood(h, i + 1)
    ensures CountOf(hits, i) == i + 1
  {
    assert hits[..i] == Flood(h, i + 1)[..i] == Flood(h, i);
    assert hits[i] == Flood(h, i + 1)[i] == h;
    if i > 0 {
      FloodCounts(h, i);
    }
  }

  /** If the first n requests are all of one minute and role and accepted, that is how many are. */
  lemma {:induction false} AllAccepted(hits: seq<Hit>, n: nat, k: Minute, admin: bool)
    requires n <= |hits|
    requires forall i :: 0 <= i < n ==> MinuteOf(hits[i]) == k && hits[i].admin == admin && Accepted(hits, i)
    ensures AcceptedIn(hits, n, k, admin) == n
  {
    if n > 0 {
      AllAccepted(hits, n - 1, k, admin);
    }
  }

  /** One more than the limit: a late request finds its minute's counter gone. */
  lemma LateRequestExceeds(lead: nat, lag: nat) returns (hits: seq<Hit>)
    requires lead + lag > SLACK
    ensures Within(hits, lead, lag) && AcceptedIn(hits, |hits|, ("t", 1), false) == Limit(false) + 1
  {
    var n, early, late := Limit(false), Early(lead), Late(lead);
    hits := Flood(early, n) + [late];
    forall i | 0 <= i < n
      ensures Accepted(hits, i)
    {
      assert hits[..i + 1] == Flood(early, i + 1);
      CountInFlood(hits, early, i);
    }
    assert hits[..n] == Flood(early, n);
    FloodCounts(early, n);
    assert CountOf(hits, n) == 1;
    AllAccepted(hits, n + 1, ("t", 1), false);
  }

  /**
   The limit per minute holds for every sequence of requests if and only if lead and lag together are ten
   seconds at most.
   */
  lemma LimitedUpToTenSeconds(lead: nat, lag: nat)
    ensures AlwaysLimited(lead, lag) <==> lead + lag <= SLACK
  {
    if lead + lag <= SLACK {
      forall hits: seq<Hit>, k: Minute, admin: bool | Within(hits, lead, lag)
        ensures AcceptedIn(hits, |hits|, k, admin) <= Limit(admin)
      {
        AtMostLimitPerMinute(hits, |hits|, k, admin);
      }
    } else {
      var hits := LateRequestExceeds(lead, lag);
      assert Within(hits, lead, lag);
    }
  }

  // ----- The middleware -----

  datatype Verdict = Next(limit: int, remaining: int) | TooMany(limit: int, remaining: int) | Unavailable

  function VerdictOf(count: int, admin: bool): Verdict {
    var limit := Limit(admin);
    if count > limit then TooMany(limit, 0) else Next(limit, limit - count)
  }

  class Gateway {
    var counters: Counters

    constructor ()
      ensures counters == map[]
    {
      counters := map[];
    }

    /** The Lua script. */
    method Script(key: Minute, at: nat) returns (n: nat)
      modifies this
      ensures counters == Incr(old(counters), key, at)
      ensures n == Live(old(counters), key, at) + 1
    {
      var current := if key in counters && at < counters[key].expires then counters[key].count else 0;
      n := current + 1;
      if n == 1 {
        counters := counters[key := Counter(n, at + 70_000)];
      } else {
        counters := counters[key := Counter(n, counters[key].expires)];
      }
    }

    /** `reachable` is false when Redis does not answer. */
    method Admit(h: Hit, reachable: bool) returns (verdict: Verdict)
      modifies this
      ensures counters == if reachable then Incr(old(counters), MinuteOf(h), h.at) else old(counters)
      ensures verdict == if reachable then VerdictOf(Live(old(counters), MinuteOf(h), h.at) + 1, h.admin)
          else Unavailable
    {
      if !reachable {
        return Unavailable;
      }
      var count := Script(MinuteOf(h), h.at);
      var limit: int := 120;
      if h.admin {
        limit := 600;
      }
      var remaining: int := if limit - count > 0 then limit - count else 0;
      if count > limit {
        return TooMany(limit, remaining);
      }
      return Next(limit, remaining);
    }

    /** A whole sequence of requests is answered as the counts above say. */
    method Serve(hits: seq<Hit>) returns (verdicts: seq<Verdict>)
      requires counters == map[]
      modifies this
      ensures counters == After(hits) && |verdicts| == |hits|
      ensures forall i :: 0 <= i < |hits| ==> verdicts[i] == VerdictOf(CountOf(hits, i), hits[i].admin)
      ensures forall i :: 0 <= i < |hits| ==> (verdicts[i].Next? <==> Accepted(hits, i))
    {
      verdicts := [];
      var n := 0;
      assert hits[..0] == [];
      while n < |hits|
        invariant n <= |hits| && |verdicts| == n
        invariant counters == After(hits[..n])
        invariant forall i :: 0 <= i < n ==> verdicts[i] == VerdictOf(CountOf(hits, i), hits[i].admin)
      {
        assert hits[..n + 1][..n] == hits[..n];
        var v := Admit(hits[n], true);
        verdicts := verdicts + [v];
        n := n + 1;
      }
      assert hits[..n] == hits;
    }
  }
}
