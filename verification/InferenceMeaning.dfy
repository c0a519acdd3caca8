/** Which outcome each request is told, and what the counters count. */
module InferenceMeaning {
  import opened Common
  import opened InferenceModel
  import opened InferenceProofs

  /** A request that is too late, malformed or too many is answered at once as expired, failed or rejected; any other waits last in the
      queue, and is not answered. */
  lemma SubmitMeans(s: Service, contract: string, verdict: Verdict, capacity: nat)
    ensures var t, ticket := Submit(s, contract, verdict, capacity), s.submitted;
            && t.submitted == ticket + 1 && t.carry == s.carry && t.active == s.active
            && (verdict == Late ==> t.responses == s.responses + [Response(ticket, Expired)])
            && (verdict == Invalid ==> t.responses == s.responses + [Response(ticket, Failed)])
            && (verdict == Fine && |s.queue| >= capacity ==> t.responses == s.responses + [Response(ticket, QueueRejected)])
            && (if verdict == Fine && |s.queue| < capacity then
                  t.queue == s.queue + [Request(ticket, contract)] && t.responses == s.responses && t.unfinished == s.unfinished + 1
                  && t.counts == s.counts.(accepted := s.counts.accepted + 1)
                else t.queue == s.queue && t.unfinished == s.unfinished && t.counts.accepted == s.counts.accepted)
  {}

  /** A batch is the first of the waiting requests, all of one contract and no more than the limit; it ends short of the limit only with
      the last of them or at a request of another contract, which is then carried. */
  ghost predicate IsBatch(waiting: seq<Request>, maxBatch: nat, batch: seq<Request>, carry: Option<Request>, queue: seq<Request>) {
    var n := |batch|;
    && 1 <= n <= |waiting| && batch == waiting[..n] && (forall r :: r in batch ==> r.contract == batch[0].contract)
    && n <= (if maxBatch == 0 then 1 else maxBatch)
    && (if n < |waiting| && n < maxBatch then
          waiting[n].contract != batch[0].contract && carry == Some(waiting[n]) && queue == waiting[n + 1..]
        else carry == None && queue == waiting[n..])
  }

  /** A batch is taken from the carried request and, after it, the queue; nothing else changes. */
  lemma CollectedMeans(s: Service, maxBatch: nat)
    requires CanCollect(s)
    ensures var (t, batch) := Collected(s, maxBatch);
            && IsBatch((if s.carry.Some? then [s.carry.value] else []) + s.queue, maxBatch, batch, t.carry, t.queue)
            && t.responses == s.responses && t.counts == s.counts && t.submitted == s.submitted && t.unfinished == s.unfinished
  {
    hide Joining; hide IsBatch;
    var first := if s.carry.Some? then s.carry.value else s.queue[0];
    var rest := if s.carry.Some? then s.queue else s.queue[1..];
    FirstJoined(first, rest, maxBatch);
    assert (if s.carry.Some? then [s.carry.value] else []) + s.queue == [first] + rest;
  }

  lemma FirstJoined(first: Request, rest: seq<Request>, maxBatch: nat)
    ensures var room := if maxBatch == 0 then 0 else maxBatch - 1; var n := Joining(rest, first.contract, room);
            if n < |rest| && n < room then IsBatch([first] + rest, maxBatch, [first] + rest[..n], Some(rest[n]), rest[n + 1..])
            else IsBatch([first] + rest, maxBatch, [first] + rest[..n], None, rest[n..])
  {
    hide Joining; hide IsBatch;
    var n, waiting := Joining(rest, first.contract, if maxBatch == 0 then 0 else maxBatch - 1), [first] + rest;
    Slices(first, rest, n);
    forall i | 0 <= i <= n
      ensures waiting[i].contract == first.contract
    {
      if i > 0 { assert waiting[i] == rest[i - 1]; }
    }
    FrontIsBatch(waiting, maxBatch, n);
  }

  lemma FrontIsBatch(waiting: seq<Request>, maxBatch: nat, n: nat)
    requires n < |waiting| && n <= (if maxBatch == 0 then 0 else maxBatch - 1)
    requires forall i :: 0 <= i <= n ==> waiting[i].contract == waiting[0].contract
    requires n + 1 < |waiting| && n + 1 < maxBatch ==> waiting[n + 1].contract != waiting[0].contract
    ensures if n + 1 < |waiting| && n + 1 < maxBatch then IsBatch(waiting, maxBatch, waiting[..n + 1], Some(waiting[n + 1]), waiting[n + 2..])
            else IsBatch(waiting, maxBatch, waiting[..n + 1], None, waiting[n + 1..])
  {}

  lemma Slices(first: Request, rest: seq<Request>, n: nat)
    requires n <= |rest|
    ensures ([first] + rest)[..n + 1] == [first] + rest[..n] && ([first] + rest)[n + 1..] == rest[n..]
    ensures n < |rest| ==> ([first] + rest)[n + 1] == rest[n] && ([first] + rest)[n + 2..] == rest[n + 1..]
  {}

  /** Values are told in order: a request still in time is completed, one whose deadline passed meanwhile has expired. */
  lemma {:induction false} PairedMeans(s: Service, requests: seq<Request>, inTime: Request -> bool)
    ensures var t := Paired(s, requests, inTime).responses;
            && |t| == |s.responses| + |requests| && t[..|s.responses|] == s.responses
            && forall i :: 0 <= i < |requests| ==>
                 t[|s.responses| + i] == Response(requests[i].ticket, if inTime(requests[i]) then Completed else Expired)
  {
    if requests != [] {
      var init := requests[..|requests| - 1];
      PairedMeans(s, init, inTime);
      assert forall i :: 0 <= i < |init| ==> init[i] == requests[i];
    }
  }

  lemma {:induction false} FailedMeans(s: Service, requests: seq<Request>)
    ensures var t := AllFailed(s, requests).responses;
            && |t| == |s.responses| + |requests| && t[..|s.responses|] == s.responses
            && forall i :: 0 <= i < |requests| ==> t[|s.responses| + i] == Response(requests[i].ticket, Failed)
  {
    if requests != [] {
      var init := requests[..|requests| - 1];
      FailedMeans(s, init);
      assert forall i :: 0 <= i < |init| ==> init[i] == requests[i];
    }
  }

  /** After a model call with one value per request each request of the batch has its one answer, in order; after one that raised all of
      them have failed. */
  lemma ReturnMeans(s: Service, values: Option<nat>, inTime: Request -> bool)
    requires Matched(s, values)
    ensures var t := Predicted(s, values, inTime);
            && t.active == [] && |t.responses| == |s.responses| + |s.active| && t.responses[..|s.responses|] == s.responses
            && forall i :: 0 <= i < |s.active| ==>
                 t.responses[|s.responses| + i] == Response(s.active[i].ticket, if values.None? || values == Some(0) then Failed
                                                                                else if inTime(s.active[i]) then Completed else Expired)
  {
    hide Paired; hide AllFailed;
    var n := |s.active|;
    if values == Some(n) {
      assert s.active[..n] == s.active;
      PairedMeans(s, s.active, inTime);
    } else {
      var pairs := s.active[..0];
      assert pairs == [];
      PairedMeans(s, [], inTime);
      var paired := if values.None? then s else Paired(s, [], inTime);
      assert paired.responses == s.responses;
      FailedMeans(paired, s.active);
    }
  }

  /** Requests of a batch that are no longer in time have expired, and the others become active, each in order. */
  lemma {:induction false} ScreenedMeans(s: Service, batch: seq<Request>, inTime: Request -> bool)
    ensures var t := Screened(s, batch, inTime);
            && t.active == s.active + Kept(batch, inTime, true) && |t.responses| == |s.responses| + |Kept(batch, inTime, false)|
            && t.responses[..|s.responses|] == s.responses
            && forall i :: 0 <= i < |Kept(batch, inTime, false)| ==>
                 t.responses[|s.responses| + i] == Response(Kept(batch, inTime, false)[i].ticket, Expired)
  {
    if batch != [] { ScreenedMeans(s, batch[..|batch| - 1], inTime); }
  }

  /** The requests of a batch that are in time, or those that are not. */
  function Kept(batch: seq<Request>, inTime: Request -> bool, which: bool): seq<Request> {
    if batch == [] then [] else
    Kept(batch[..|batch| - 1], inTime, which) + if inTime(batch[|batch| - 1]) == which then [batch[|batch| - 1]] else []
  }

  // ---- The counters ---------------------------------------------------------------------------

  function Times(responses: seq<Response>, outcome: Outcome): nat {
    if responses == [] then 0 else Times(responses[..|responses| - 1], outcome) + if responses[|responses| - 1].outcome == outcome then 1 else 0
  }

  /** Each counter is the number of responses of its kind. */
  ghost predicate CountsTell(s: Service) {
    && s.counts.completed == Times(s.responses, Completed) && s.counts.failed == Times(s.responses, Failed)
    && s.counts.expired == Times(s.responses, Expired) && s.counts.queueRejected == Times(s.responses, QueueRejected)
  }

  lemma AnsweredCounts(s: Service, ticket: nat, outcome: Outcome)
    requires CountsTell(s)
    ensures CountsTell(Answered(s, ticket, outcome))
  {}

  lemma {:induction false} PairedCounts(s: Service, requests: seq<Request>, inTime: Request -> bool)
    requires CountsTell(s)
    ensures CountsTell(Paired(s, requests, inTime))
  {
    hide CountsTell; hide Answered;
    if requests != [] {
      var r := requests[|requests| - 1];
      PairedCounts(s, requests[..|requests| - 1], inTime);
      AnsweredCounts(Paired(s, requests[..|requests| - 1], inTime), r.ticket, if inTime(r) then Completed else Expired);
    }
  }

  lemma {:induction false} FailedCounts(s: Service, requests: seq<Request>)
    requires CountsTell(s)
    ensures CountsTell(AllFailed(s, requests))
  {
    hide CountsTell; hide Answered;
    if requests != [] {
      FailedCounts(s, requests[..|requests| - 1]);
      AnsweredCounts(AllFailed(s, requests[..|requests| - 1]), requests[|requests| - 1].ticket, Failed);
    }
  }

  lemma {:induction false} ScreenedCounts(s: Service, batch: seq<Request>, inTime: Request -> bool)
    requires CountsTell(s)
    ensures CountsTell(Screened(s, batch, inTime))
  {
    hide Times;
    if batch != [] {
      var t, r := Screened(s, batch[..|batch| - 1], inTime), batch[|batch| - 1];
      ScreenedCounts(s, batch[..|batch| - 1], inTime);
      AnsweredCounts(t, r.ticket, Expired);
    }
  }

  lemma StepCounts(s: Service, step: Step, capacity: nat, maxBatch: nat)
    requires CountsTell(s) && Enabled(s, step)
    ensures CountsTell(Next(s, step, capacity, maxBatch))
  {
    hide Times; hide Paired; hide AllFailed; hide Screened;
    match step
    case Arrive(contract, verdict) =>
      var arrived := s.(submitted := s.submitted + 1);
      AnsweredCounts(arrived, s.submitted, Expired);
      AnsweredCounts(arrived, s.submitted, Failed);
      AnsweredCounts(arrived, s.submitted, QueueRejected);
    case Gather(inTime) =>
      var (t, batch) := Collected(s, maxBatch);
      ScreenedCounts(t, batch, inTime);
    case Return(values, inTime) =>
      var n := |s.active|;
      var paired := if values.None? then s else Paired(s, s.active[..if values.value < n then values.value else n], inTime);
      if values.Some? { PairedCounts(s, s.active[..if values.value < n then values.value else n], inTime); }
      FailedCounts(paired, s.active);
  }

  /** In every run the counters are the numbers of responses of each kind. */
  lemma {:induction false} CountersTell(states: seq<Service>, steps: seq<Step>, capacity: nat, maxBatch: nat, i: nat)
    requires IsRun(states, steps, capacity, maxBatch) && i < |states|
    ensures CountsTell(states[i])
  {
    hide CountsTell; hide Next; hide Matched;
    if i == 0 {
      NothingCounted();
    } else {
      CountersTell(states, steps, capacity, maxBatch, i - 1);
      StepCounts(states[i - 1], steps[i - 1], capacity, maxBatch);
    }
  }

  lemma NothingCounted()
    ensures CountsTell(IDLE)
  {}
}
