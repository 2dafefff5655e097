/**
 The enterprise worker: an endless loop that polls, calls the target of the operation it was handed and
 reports the outcome. Its HTTP client gives up on a call after 45 seconds, whatever the other side is still
 doing. The environment's answers, and how long the other side takes, are parameters; the heartbeats that
 run beside a target call are left out.
 */
module Agent {
  import opened Domain

  /** http.Client{Timeout: 45 * time.Second} */
  const PATIENCE := 45

  datatype PollAnswer = CallFailed | Empty | Work(op: string)

  /** `response` is None when the request could not be made or got no answer. */
  datatype TargetAnswer = TargetAnswer(response: Option<int>)

  datatype Call =
    | Poll
    | Target(op: string)
    | Complete(op: string)
    | Fail(op: string, retryable: bool)

  /** The answers of one turn, and how many seconds the other side is busy with each call. */
  datatype Round = Round(poll: PollAnswer, pollTook: nat, target: TargetAnswer, targetTook: nat, reportTook: nat)

  /** A call as made: when it was opened, when the agent stopped waiting, when the other side was through with it. */
  datatype Span = Span(call: Call, began: int, ended: int, through: int)

  function SpanOf(call: Call, at: int, took: nat): Span {
    Span(call, at, at + if took <= PATIENCE then took else PATIENCE, at + took)
  }

  function PollHeard(r: Round): PollAnswer {
    if r.pollTook <= PATIENCE then r.poll else CallFailed
  }

  function TargetHeard(r: Round): TargetAnswer {
    if r.targetTook <= PATIENCE then r.target else TargetAnswer(None)
  }

  function StatusOf(t: TargetAnswer): int {
    match t.response
    case None => 0
    case Some(code) => code
  }

  /** 2xx answers complete the operation. */
  predicate Succeeds(t: TargetAnswer) {
    t.response.Some? && 200 <= t.response.value < 300
  }

  /** No answer, 408, 429 and server errors may be tried again. */
  predicate Transient(t: TargetAnswer) {
    var status := StatusOf(t);
    status == 0 || status == 408 || status == 429 || status >= 500
  }

  function Report(op: string, t: TargetAnswer): Call {
    if Succeeds(t) then Complete(op) else Fail(op, Transient(t))
  }

  /** The calls of one turn of the loop that starts at `at`. */
  function RoundSpans(r: Round, at: int): seq<Span> {
    var poll := SpanOf(Poll, at, r.pollTook);
    match PollHeard(r)
    case Work(op) =>
      var target := SpanOf(Target(op), poll.ended, r.targetTook);
      [poll, target, SpanOf(Report(op, TargetHeard(r)), target.ended, r.reportTook)]
    case _ => [poll]
  }

  /** A failed poll is followed by two seconds of sleep. */
  function RoundEnd(r: Round, at: int): int {
    var spans := RoundSpans(r, at);
    spans[|spans| - 1].ended + if PollHeard(r).CallFailed? then 2 else 0
  }

  function EndOf(rounds: seq<Round>, at: int): int {
    if rounds == [] then at else RoundEnd(rounds[|rounds| - 1], EndOf(rounds[..|rounds| - 1], at))
  }

  function Spans(rounds: seq<Round>, at: int): seq<Span> {
    if rounds == [] then []
    else
      var before := rounds[..|rounds| - 1];
      Spans(before, at) + RoundSpans(rounds[|rounds| - 1], EndOf(before, at))
  }

  class Agent {
    var now: int
    var spans: seq<Span>

    constructor (now: int)
      ensures this.now == now && spans == []
    {
      this.now, spans := now, [];
    }

    /** One call: the agent waits for the answer, 45 seconds at most. */
    method Call(call: Call, took: nat) returns (heard: bool)
      modifies this
      ensures spans == old(spans) + [SpanOf(call, old(now), took)]
      ensures now == SpanOf(call, old(now), took).ended
      ensures heard <==> took <= PATIENCE
    {
      var began := now;
      heard := took <= 45;
      now := now + if heard then took else 45;
      spans := spans + [Span(call, began, now, began + took)];
    }

    method Process(op: string, answer: TargetAnswer, targetTook: nat, reportTook: nat)
      modifies this
      ensures
        var target := SpanOf(Target(op), old(now), targetTook);
        var heard := if targetTook <= PATIENCE then answer else TargetAnswer(None);
        var report := SpanOf(Report(op, heard), target.ended, reportTook);
        spans == old(spans) + [target, report] && now == report.ended
    {
      var heard := Call(Target(op), targetTook);
      var failed := !heard || answer.response.None?;
      var status := 0;
      if !failed {
        status := answer.response.value;
        if status < 200 || status >= 300 {
          failed := true;
        }
      }
      if !failed {
        var _ := Call(Complete(op), reportTook);
        return;
      }
      var retryable := status == 0 || status == 408 || status == 429 || status >= 500;
      var _ := Call(Fail(op, retryable), reportTook);
    }

    method Run(rounds: seq<Round>)
      modifies this
      ensures spans == old(spans) + Spans(rounds, old(now)) && now == EndOf(rounds, old(now))
    {
      var n := 0;
      while n < |rounds|
        invariant n <= |rounds|
        invariant spans == old(spans) + Spans(rounds[..n], old(now)) && now == EndOf(rounds[..n], old(now))
      {
        assert rounds[..n + 1][..n] == rounds[..n];
        Turn(rounds[n]);
        n := n + 1;
      }
      assert rounds[..n] == rounds;
    }

    /** One turn of the loop. */
    method Turn(r: Round)
      modifies this
      ensures spans == old(spans) + RoundSpans(r, old(now)) && now == RoundEnd(r, old(now))
    {
      var heard := Call(Poll, r.pollTook);
      if !heard || r.poll.CallFailed? {
        now := now + 2;
      } else if r.poll.Work? {
        Process(r.poll.op, r.target, r.targetTook, r.reportTook);
      }
    }
  }

  // ----- One call at a time, as far as the agent knows -----

  predicate IsReport(c: Call, op: string) {
    (c.Complete? || c.Fail?) && c.op == op
  }

  /** Between two polls at most one target call, and exactly one report for it; no call before the last one ended. */
  predicate Sequential(spans: seq<Span>) {
    && (forall i :: 0 <= i < |spans| && spans[i].call.Target? ==>
          i + 1 < |spans| && IsReport(spans[i + 1].call, spans[i].call.op))
    && (forall i :: 0 <= i < |spans| && (spans[i].call.Complete? || spans[i].call.Fail?) ==>
          i > 0 && spans[i - 1].call == Target(spans[i].call.op))
    && (forall i :: 0 <= i < |spans| && spans[i].call.Target? ==> i > 0 && spans[i - 1].call.Poll?)
  }

  predicate InOrder(spans: seq<Span>, at: int, end: int) {
    && (forall i, j :: 0 <= i < j < |spans| ==> spans[i].ended <= spans[j].began)
    && (forall i :: 0 <= i < |spans| ==> at <= spans[i].began <= spans[i].ended <= end)
    && (forall i :: 0 <= i < |spans| ==>
          spans[i].ended == spans[i].through || spans[i].ended == spans[i].began + PATIENCE)
    && (forall i :: 0 <= i < |spans| ==> spans[i].ended <= spans[i].through)
  }

  lemma {:induction false} CallsSequential(rounds: seq<Round>, at: int)
    ensures Sequential(Spans(rounds, at))
  {
    if rounds != [] {
      var n := |rounds| - 1;
      CallsSequential(rounds[..n], at);
      RoundSequential(rounds[n], EndOf(rounds[..n], at));
      SequentialJoined(Spans(rounds[..n], at), RoundSpans(rounds[n], EndOf(rounds[..n], at)));
    }
  }

  lemma RoundSequential(r: Round, at: int)
    ensures Sequential(RoundSpans(r, at))
  {
  }

  lemma SequentialJoined(before: seq<Span>, after: seq<Span>)
    requires Sequential(before) && Sequential(after)
    ensures Sequential(before + after)
  {
    assert forall i :: 0 <= i < |before| ==> (before + after)[i] == before[i];
    assert forall i :: |before| <= i < |before| + |after| ==> (before + after)[i] == after[i - |before|];
  }

  lemma {:induction false} CallsInOrder(rounds: seq<Round>, at: int)
    ensures InOrder(Spans(rounds, at), at, EndOf(rounds, at)) && at <= EndOf(rounds, at)
  {
    if rounds != [] {
      var n := |rounds| - 1;
      CallsInOrder(rounds[..n], at);
      var mid := EndOf(rounds[..n], at);
      RoundInOrder(rounds[n], mid);
      InOrderJoined(Spans(rounds[..n], at), RoundSpans(rounds[n], mid), at, mid, RoundEnd(rounds[n], mid));
    }
  }

  lemma RoundInOrder(r: Round, at: int)
    ensures InOrder(RoundSpans(r, at), at, RoundEnd(r, at)) && at <= RoundEnd(r, at)
  {
  }

  lemma InOrderJoined(before: seq<Span>, after: seq<Span>, at: int, mid: int, end: int)
    requires InOrder(before, at, mid) && InOrder(after, mid, end) && at <= mid <= end
    ensures InOrder(before + after, at, end)
  {
  }

  // ----- One call at a time, as the other side sees it -----

  /** When an agent may open a call: its last one was answered, or has been open for as long as the agent waits. */
  predicate MayOpen(until: Option<int>, busy: bool, now: int) {
    until.None? || !busy || now >= until.value
  }

  /** Every call of the loop is opened under that rule, with respect to each call before it. */
  lemma CallsObeyMayOpen(rounds: seq<Round>, at: int, i: nat, j: nat)
    requires i < j < |Spans(rounds, at)|
    ensures
      var earlier, later := Spans(rounds, at)[i], Spans(rounds, at)[j];
      MayOpen(Some(earlier.began + PATIENCE), later.began < earlier.through, later.began)
  {
    CallsInOrder(rounds, at);
  }

  /** The other side is through with each call before the next one is opened. */
  predicate Apart(spans: seq<Span>) {
    forall i, j :: 0 <= i < j < |spans| ==> spans[i].through <= spans[j].began
  }

  predicate Within(rounds: seq<Round>, limit: nat) {
    forall i :: 0 <= i < |rounds| ==>
        rounds[i].pollTook <= limit && rounds[i].targetTook <= limit && rounds[i].reportTook <= limit
  }

  ghost predicate AlwaysApart(limit: nat) {
    forall rounds: seq<Round>, at: int :: Within(rounds, limit) ==> Apart(Spans(rounds, at))
  }

  lemma {:induction false} PromptCallsEndThrough(rounds: seq<Round>, at: int)
    requires Within(rounds, PATIENCE)
    ensures forall i :: 0 <= i < |Spans(rounds, at)| ==> Spans(rounds, at)[i].ended == Spans(rounds, at)[i].through
  {
    if rounds != [] {
      PromptCallsEndThrough(rounds[..|rounds| - 1], at);
    }
  }

  /**
   No two calls of the agent are ever worked on at once if and only if none takes longer than the 45 seconds
   it waits.
   */
  lemma ApartExactlyWithinPatience(limit: nat)
    ensures AlwaysApart(limit) <==> limit <= PATIENCE
  {
    if limit <= PATIENCE {
      forall rounds: seq<Round>, at: int | Within(rounds, limit)
        ensures Apart(Spans(rounds, at))
      {
        CallsInOrder(rounds, at);
        PromptCallsEndThrough(rounds, at);
      }
    } else {
      var a, b := OverdueRounds();
      OverdueReportOverlaps(a, b, 0);
      assert Within([a, b], limit);
    }
  }

  /** The target fails with 500, and the report of it takes 46 seconds. */
  lemma OverdueRounds() returns (a: Round, b: Round)
    ensures PollHeard(a) == Work("a") && a.reportTook == PATIENCE + 1 && Within([a, b], PATIENCE + 1)
  {
    a, b := Round(Work("a"), 0, TargetAnswer(Some(500)), 0, PATIENCE + 1), Round(Empty, 0, TargetAnswer(None), 0, 0);
  }

  lemma TwoRounds(a: Round, b: Round, at: int)
    ensures Spans([a, b], at) == RoundSpans(a, at) + RoundSpans(b, RoundEnd(a, at))
  {
    assert [a, b][..1] == [a] && [a][..0] == [];
    assert EndOf([a], at) == RoundEnd(a, at) && Spans([a], at) == RoundSpans(a, at);
  }

  /** Whatever the answers: a report that takes longer is still being worked on when the next poll is opened. */
  lemma OverdueReportOverlaps(a: Round, b: Round, at: int)
    requires PollHeard(a).Work? && a.reportTook > PATIENCE
    ensures !Apart(Spans([a, b], at))
  {
    TwoRounds(a, b, at);
    var first, second := RoundSpans(a, at), RoundSpans(b, RoundEnd(a, at));
    assert (first + second)[2] == first[2] && (first + second)[3] == second[0];
    assert first[2].through > second[0].began;
  }
}
