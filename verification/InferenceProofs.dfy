/** Conservation in the inference queue: one terminal response per request, in order, and nothing lost or owed at the end. */
module InferenceProofs {
  import opened Common
  import opened InferenceModel

  /** Everything accepted and not yet answered, oldest first. */
  function Owed(s: Service): seq<Request> { s.active + Waiting(s) }

  function Waiting(s: Service): seq<Request> { (if s.carry.Some? then [s.carry.value] else []) + s.queue }

  /** How often a ticket is waiting. */
  function Owes(requests: seq<Request>, ticket: nat): nat {
    if requests == [] then 0 else Owes(requests[..|requests| - 1], ticket) + if requests[|requests| - 1].ticket == ticket then 1 else 0
  }

  /** How often a ticket has been answered. */
  function Tells(responses: seq<Response>, ticket: nat): nat {
    if responses == [] then 0 else Tells(responses[..|responses| - 1], ticket) + if responses[|responses| - 1].ticket == ticket then 1 else 0
  }

  function Total(c: Counts): nat { c.completed + c.failed + c.expired + c.queueRejected }

  ghost predicate Rising(requests: seq<Request>) { forall i, j :: 0 <= i < j < |requests| ==> requests[i].ticket < requests[j].ticket }

  ghost predicate CompletedRise(responses: seq<Response>) {
    forall i, j :: 0 <= i < j < |responses| && responses[i].outcome.Completed? && responses[j].outcome.Completed? ==>
      responses[i].ticket < responses[j].ticket
  }

  ghost predicate Before(responses: seq<Response>, requests: seq<Request>) {
    forall r, q :: r in responses && r.outcome.Completed? && q in requests ==> r.ticket < q.ticket
  }

  ghost predicate OneContract(requests: seq<Request>) { forall q, r :: q in requests && r in requests ==> q.contract == r.contract }

  /** Each submitted request has been answered once or is owed once. */
  ghost predicate Once(s: Service) {
    forall t: nat :: Tells(s.responses, t) + Owes(Owed(s), t) == if t < s.submitted then 1 else 0
  }

  /** The counters add up. */
  ghost predicate Balanced(s: Service) {
    s.unfinished == |Owed(s)| && Total(s.counts) == |s.responses| && |s.responses| + |Owed(s)| == s.submitted
  }

  ghost predicate InOrder(s: Service) {
    && Rising(Owed(s)) && CompletedRise(s.responses) && Before(s.responses, Owed(s)) && OneContract(s.active)
    && forall q :: q in Owed(s) ==> q.ticket < s.submitted
  }

  ghost predicate Inv(s: Service) { Once(s) && Balanced(s) && InOrder(s) }

  lemma {:induction false} OwesJoin(a: seq<Request>, b: seq<Request>, t: nat)
    ensures Owes(a + b, t) == Owes(a, t) + Owes(b, t)
  {
    if b == [] {
      assert a + b == a;
    } else {
      OwesJoin(a, b[..|b| - 1], t);
      assert (a + b)[..|a + b| - 1] == a + b[..|b| - 1];
    }
  }

  lemma TellsAppend(responses: seq<Response>, r: Response, t: nat)
    ensures Tells(responses + [r], t) == Tells(responses, t) + if r.ticket == t then 1 else 0
  {}

  lemma OwesAppend(requests: seq<Request>, q: Request, t: nat)
    ensures Owes(requests + [q], t) == Owes(requests, t) + if q.ticket == t then 1 else 0
  {}

  // ---- Arrivals -------------------------------------------------------------------------------

  lemma ArriveKeepsOnce(s: Service, contract: string, verdict: Verdict, capacity: nat)
    requires Once(s)
    ensures Once(Submit(s, contract, verdict, capacity))
  {
    hide Tells; hide Owes;
    var n := Submit(s, contract, verdict, capacity);
    forall t: nat
      ensures Tells(n.responses, t) + Owes(Owed(n), t) == if t < n.submitted then 1 else 0
    {
      assert Tells(s.responses, t) + Owes(Owed(s), t) == if t < s.submitted then 1 else 0;
      if n.queue == s.queue {
        TellsAppend(s.responses, n.responses[|s.responses|], t);
      } else {
        assert Owed(n) == Owed(s) + [Request(s.submitted, contract)];
        OwesAppend(Owed(s), Request(s.submitted, contract), t);
      }
    }
  }

  lemma ArriveKeepsOrder(s: Service, contract: string, verdict: Verdict, capacity: nat)
    requires Inv(s)
    ensures InOrder(Submit(s, contract, verdict, capacity)) && Balanced(Submit(s, contract, verdict, capacity))
  {
    hide OneContract; hide CompletedRise; hide Before; hide Rising;
    var n := Submit(s, contract, verdict, capacity);
    if n.queue == s.queue {
      assert Owed(n) == Owed(s);
      RefusalKeepsOrder(s.responses, n.responses[|s.responses|], Owed(s));
    } else {
      assert Owed(n) == Owed(s) + [Request(s.submitted, contract)];
      forall r | r in s.responses
        ensures r.ticket < s.submitted
      {
        TellsIfAnswered(s.responses, r);
      }
      ArrivalKeepsOrder(s.responses, Owed(s), Request(s.submitted, contract));
    }
  }

  lemma {:induction false} TellsIfAnswered(responses: seq<Response>, r: Response)
    requires r in responses
    ensures Tells(responses, r.ticket) > 0
  {
    if responses[|responses| - 1] != r { TellsIfAnswered(responses[..|responses| - 1], r); }
  }

  lemma RefusalKeepsOrder(responses: seq<Response>, r: Response, owed: seq<Request>)
    requires CompletedRise(responses) && Before(responses, owed) && !r.outcome.Completed?
    ensures CompletedRise(responses + [r]) && Before(responses + [r], owed)
  {}

  lemma ArrivalKeepsOrder(responses: seq<Response>, owed: seq<Request>, q: Request)
    requires Rising(owed) && Before(responses, owed) && (forall r :: r in owed ==> r.ticket < q.ticket)
    requires forall r :: r in responses ==> r.ticket < q.ticket
    ensures Rising(owed + [q]) && Before(responses, owed + [q])
  {}

  // ---- Batches --------------------------------------------------------------------------------

  /** Collecting moves requests and answers none: the batch, the carried request and the queue are what was owed, in order. */
  lemma CollectedIsOwed(s: Service, maxBatch: nat)
    requires CanCollect(s)
    ensures var (t, batch) := Collected(s, maxBatch);
            && t == s.(queue := t.queue, carry := t.carry) && batch + Waiting(t) == Owed(s) && OneContract(batch) && batch != []
            && (maxBatch > 0 ==> |batch| <= maxBatch)
  {
    hide OneContract; hide Waiting; hide Joining;
    var first := if s.carry.Some? then s.carry.value else s.queue[0];
    var rest := if s.carry.Some? then s.queue else s.queue[1..];
    var n := Joining(rest, first.contract, if maxBatch == 0 then 0 else maxBatch - 1);
    JoiningIsOneContract(first, rest, n);
    CarryIsOwed(s, first, rest);
    var (t, batch) := Collected(s, maxBatch);
    CarriedIsWaiting(t, rest, n);
    CutJoins(first, rest, n);
    assert Owed(s) == Waiting(s);
  }

  lemma CutJoins(first: Request, rest: seq<Request>, n: nat)
    requires n <= |rest|
    ensures ([first] + rest[..n]) + rest[n..] == [first] + rest
  {}

  lemma CarryIsOwed(s: Service, first: Request, rest: seq<Request>)
    requires if s.carry.Some? then first == s.carry.value && rest == s.queue else s.queue != [] && first == s.queue[0] && rest == s.queue[1..]
    ensures Waiting(s) == [first] + rest
  {}

  lemma CarriedIsWaiting(t: Service, rest: seq<Request>, n: nat)
    requires n <= |rest|
    requires if t.carry.Some? then n < |rest| && t.carry.value == rest[n] && t.queue == rest[n + 1..] else t.queue == rest[n..]
    ensures Waiting(t) == rest[n..]
  {}

  lemma JoiningIsOneContract(first: Request, rest: seq<Request>, n: nat)
    requires n <= |rest| && forall i :: 0 <= i < n ==> rest[i].contract == first.contract
    ensures OneContract([first] + rest[..n])
  {}

  /** Screening touches nothing but the counts, the responses and the batch. */
  lemma {:induction false} ScreenedCounts(s: Service, batch: seq<Request>, inTime: Request -> bool)
    requires s.active == []
    ensures var n := Screened(s, batch, inTime);
            && n == s.(counts := n.counts, responses := n.responses, active := n.active, unfinished := n.unfinished)
            && n.unfinished - |n.active| == s.unfinished - |batch| && |n.responses| + |n.active| == |s.responses| + |batch|
            && Total(n.counts) - |n.responses| == Total(s.counts) - |s.responses|
  {
    if batch != [] { ScreenedCounts(s, batch[..|batch| - 1], inTime); }
  }

  lemma {:induction false} ScreenedTells(s: Service, batch: seq<Request>, inTime: Request -> bool, t: nat)
    requires s.active == []
    ensures var n := Screened(s, batch, inTime);
            Tells(n.responses, t) + Owes(n.active, t) == Tells(s.responses, t) + Owes(batch, t)
  {
    if batch != [] {
      var init, r := batch[..|batch| - 1], batch[|batch| - 1];
      ScreenedTells(s, init, inTime, t);
      var n := Screened(s, init, inTime);
      OwesAppend(n.active, r, t);
      TellsAppend(n.responses, Response(r.ticket, Expired), t);
    }
  }

  lemma {:induction false} ScreenedKeepsOrder(s: Service, batch: seq<Request>, inTime: Request -> bool)
    requires s.active == [] && Rising(batch) && CompletedRise(s.responses)
    ensures var n := Screened(s, batch, inTime);
            && Rising(n.active) && (forall q :: q in n.active ==> q in batch)
            && CompletedRise(n.responses) && (forall r :: r in n.responses && r.outcome.Completed? ==> r in s.responses)
  {
    if batch != [] {
      var init, r := batch[..|batch| - 1], batch[|batch| - 1];
      ScreenedKeepsOrder(s, init, inTime);
      assert forall q :: q in init ==> q.ticket < r.ticket;
    }
  }

  lemma GatherKeepsOnce(s: Service, maxBatch: nat, inTime: Request -> bool)
    requires Once(s) && CanCollect(s)
    ensures Once(Collect(s, maxBatch, inTime))
  {
    hide Tells; hide Owes; hide Collected; hide Screened; hide Total;
    var (m, batch) := Collected(s, maxBatch);
    CollectedIsOwed(s, maxBatch);
    ScreenedCounts(m, batch, inTime);
    var n := Screened(m, batch, inTime);
    forall t: nat
      ensures Tells(n.responses, t) + Owes(Owed(n), t) == if t < n.submitted then 1 else 0
    {
      assert Tells(s.responses, t) + Owes(Owed(s), t) == if t < s.submitted then 1 else 0;
      OwesJoin(batch, Waiting(m), t);
      OwesJoin(n.active, Waiting(m), t);
      ScreenedTells(m, batch, inTime, t);
    }
  }

  lemma GatherKeepsOrder(s: Service, maxBatch: nat, inTime: Request -> bool)
    requires InOrder(s) && Balanced(s) && CanCollect(s)
    ensures InOrder(Collect(s, maxBatch, inTime)) && Balanced(Collect(s, maxBatch, inTime))
  {
    hide Collected; hide Screened; hide CompletedRise; hide Total; hide Rising;
    var (m, batch) := Collected(s, maxBatch);
    CollectedIsOwed(s, maxBatch);
    ScreenedCounts(m, batch, inTime);
    RisingParts(batch, Waiting(m));
    ScreenedKeepsOrder(m, batch, inTime);
    RisingJoin(Screened(m, batch, inTime).active, batch, Waiting(m));
  }

  lemma RisingParts(a: seq<Request>, b: seq<Request>)
    requires Rising(a + b)
    ensures Rising(a) && Rising(b) && forall q, r :: q in a && r in b ==> q.ticket < r.ticket
  {
    assert forall i :: 0 <= i < |a| ==> (a + b)[i] == a[i];
    assert forall i :: 0 <= i < |b| ==> (a + b)[|a| + i] == b[i];
  }

  lemma RisingJoin(kept: seq<Request>, a: seq<Request>, b: seq<Request>)
    requires Rising(kept) && Rising(b) && (forall q :: q in kept ==> q in a)
    requires forall q, r :: q in a && r in b ==> q.ticket < r.ticket
    ensures Rising(kept + b)
  {}

  // ---- Predictions ----------------------------------------------------------------------------

  lemma {:induction false} PairedCounts(s: Service, requests: seq<Request>, inTime: Request -> bool)
    ensures var n := Paired(s, requests, inTime);
            && n == s.(counts := n.counts, responses := n.responses) && |n.responses| == |s.responses| + |requests|
            && Total(n.counts) - |n.responses| == Total(s.counts) - |s.responses|
  {
    if requests != [] { PairedCounts(s, requests[..|requests| - 1], inTime); }
  }

  lemma {:induction false} PairedTells(s: Service, requests: seq<Request>, inTime: Request -> bool, t: nat)
    ensures Tells(Paired(s, requests, inTime).responses, t) == Tells(s.responses, t) + Owes(requests, t)
  {
    if requests != [] {
      var init, r := requests[..|requests| - 1], requests[|requests| - 1];
      PairedTells(s, init, inTime, t);
      TellsAppend(Paired(s, init, inTime).responses, Response(r.ticket, if inTime(r) then Completed else Expired), t);
    }
  }

  lemma {:induction false} FailedCounts(s: Service, requests: seq<Request>)
    ensures var n := AllFailed(s, requests);
            && n == s.(counts := n.counts, responses := n.responses) && |n.responses| == |s.responses| + |requests|
            && Total(n.counts) - |n.responses| == Total(s.counts) - |s.responses|
  {
    if requests != [] { FailedCounts(s, requests[..|requests| - 1]); }
  }

  lemma {:induction false} FailedTells(s: Service, requests: seq<Request>, t: nat)
    ensures Tells(AllFailed(s, requests).responses, t) == Tells(s.responses, t) + Owes(requests, t)
  {
    if requests != [] {
      var init := requests[..|requests| - 1];
      FailedTells(s, init, t);
      TellsAppend(AllFailed(s, init).responses, Response(requests[|requests| - 1].ticket, Failed), t);
    }
  }

  ghost predicate CompletedBelow(responses: seq<Response>, bound: nat) {
    forall r :: r in responses && r.outcome.Completed? ==> r.ticket < bound
  }

  lemma {:induction false} PairedBelow(s: Service, requests: seq<Request>, inTime: Request -> bool, bound: nat)
    requires CompletedBelow(s.responses, bound) && forall q :: q in requests ==> q.ticket < bound
    ensures CompletedBelow(Paired(s, requests, inTime).responses, bound)
  {
    if requests != [] {
      assert requests[|requests| - 1] in requests;
      PairedBelow(s, requests[..|requests| - 1], inTime, bound);
    }
  }

  lemma RiseAppend(responses: seq<Response>, r: Response)
    requires CompletedRise(responses) && (r.outcome.Completed? ==> CompletedBelow(responses, r.ticket))
    ensures CompletedRise(responses + [r])
  {}

  lemma {:induction false} PairedKeepsOrder(s: Service, requests: seq<Request>, inTime: Request -> bool)
    requires Rising(requests) && CompletedRise(s.responses) && Before(s.responses, requests)
    ensures CompletedRise(Paired(s, requests, inTime).responses)
  {
    hide CompletedRise;
    if requests != [] {
      var init, last := requests[..|requests| - 1], requests[|requests| - 1];
      assert last in requests;
      PairedKeepsOrder(s, init, inTime);
      PairedBelow(s, init, inTime, last.ticket);
      RiseAppend(Paired(s, init, inTime).responses, Response(last.ticket, if inTime(last) then Completed else Expired));
    }
  }

  lemma {:induction false} FailedKeepsOrder(s: Service, requests: seq<Request>)
    requires CompletedRise(s.responses)
    ensures var n := AllFailed(s, requests);
            CompletedRise(n.responses) && forall r :: r in n.responses && r.outcome.Completed? ==> r in s.responses
  {
    if requests != [] { FailedKeepsOrder(s, requests[..|requests| - 1]); }
  }

  /** The model gave one value per request, or none at all. */
  predicate Matched(s: Service, values: Option<nat>) { values.None? || values.value == 0 || values.value == |s.active| }

  /** How many requests get a value. */
  function Pairs(s: Service, values: Option<nat>): (n: nat)
    ensures n <= |s.active|
  {
    if values.None? then 0 else if values.value < |s.active| then values.value else |s.active|
  }

  lemma PredictedIs(s: Service, values: Option<nat>, inTime: Request -> bool)
    ensures var paired := Paired(s, s.active[..Pairs(s, values)], inTime);
            var told := if values == Some(|s.active|) then paired else AllFailed(paired, s.active);
            Predicted(s, values, inTime) == told.(active := [], unfinished := told.unfinished - |s.active|)
  {}

  /** How much a returning prediction answers, whatever the number of values. */
  lemma PredictedCounts(s: Service, values: Option<nat>, inTime: Request -> bool)
    ensures var n := Predicted(s, values, inTime);
            && n.active == [] && n.queue == s.queue && n.carry == s.carry && n.submitted == s.submitted
            && n.unfinished == s.unfinished - |s.active| && Total(n.counts) - |n.responses| == Total(s.counts) - |s.responses|
            && |n.responses| == |s.responses| + Pairs(s, values) + if values == Some(|s.active|) then 0 else |s.active|
  {
    hide Paired; hide AllFailed; hide Predicted; hide Total;
    PredictedIs(s, values, inTime);
    PairedCounts(s, s.active[..Pairs(s, values)], inTime);
    FailedCounts(Paired(s, s.active[..Pairs(s, values)], inTime), s.active);
  }

  lemma ReturnKeepsOnce(s: Service, values: Option<nat>, inTime: Request -> bool)
    requires Once(s) && Matched(s, values)
    ensures Once(Predicted(s, values, inTime))
  {
    hide Paired; hide AllFailed; hide Predicted; hide Tells; hide Total;
    var n := Predicted(s, values, inTime);
    PredictedCounts(s, values, inTime);
    forall t: nat
      ensures Tells(n.responses, t) + Owes(Owed(n), t) == if t < n.submitted then 1 else 0
    {
      assert Tells(s.responses, t) + Owes(Owed(s), t) == if t < s.submitted then 1 else 0;
      OwesJoin(s.active, Waiting(s), t);
      assert Owed(n) == Waiting(s);
      MatchedTells(s, values, inTime, t);
    }
  }

  lemma MatchedTells(s: Service, values: Option<nat>, inTime: Request -> bool, t: nat)
    requires Matched(s, values)
    ensures Tells(Predicted(s, values, inTime).responses, t) == Tells(s.responses, t) + Owes(s.active, t)
  {
    hide Paired; hide AllFailed; hide Predicted; hide Tells;
    PredictedIs(s, values, inTime);
    var pairs := s.active[..Pairs(s, values)];
    PairedTells(s, pairs, inTime, t);
    FailedTells(Paired(s, pairs, inTime), s.active, t);
    assert s.active[..|s.active|] == s.active && s.active[..0] == [];
  }

  lemma ReturnKeepsOrder(s: Service, values: Option<nat>, inTime: Request -> bool)
    requires InOrder(s)
    ensures InOrder(Predicted(s, values, inTime))
  {
    hide Paired; hide AllFailed; hide CompletedRise; hide Predicted; hide Rising; hide Before; hide Pairs;
    PredictedCounts(s, values, inTime);
    var n := Predicted(s, values, inTime);
    assert Owed(n) == Waiting(s);
    RisingParts(s.active, Waiting(s));
    ReturnCompletesInOrder(s, values, inTime);
  }

  lemma ReturnCompletesInOrder(s: Service, values: Option<nat>, inTime: Request -> bool)
    requires Rising(Owed(s)) && CompletedRise(s.responses) && Before(s.responses, Owed(s))
    ensures var n := Predicted(s, values, inTime); CompletedRise(n.responses) && Before(n.responses, Waiting(s))
  {
    hide Paired; hide AllFailed; hide CompletedRise; hide Predicted; hide Rising; hide Waiting;
    PredictedIs(s, values, inTime);
    var pairs := s.active[..Pairs(s, values)];
    RisingParts(s.active, Waiting(s));
    RisingPrefix(s.active, |pairs|);
    PairedKeepsOrder(s, pairs, inTime);
    FailedKeepsOrder(Paired(s, pairs, inTime), s.active);
    forall q | q in Waiting(s)
      ensures CompletedBelow(Predicted(s, values, inTime).responses, q.ticket)
    {
      PairedBelow(s, pairs, inTime, q.ticket);
    }
  }

  lemma RisingPrefix(requests: seq<Request>, n: nat)
    requires Rising(requests) && n <= |requests|
    ensures Rising(requests[..n])
  {}

  /** The counters stay in balance exactly when the model gave as many values as there were requests, or none. */
  lemma ReturnBalancedIff(s: Service, values: Option<nat>, inTime: Request -> bool)
    requires Balanced(s) && s.active != []
    ensures Balanced(Predicted(s, values, inTime)) <==> Matched(s, values)
  {
    hide Predicted; hide Total;
    PredictedCounts(s, values, inTime);
  }

  lemma {:induction false} OwesMember(requests: seq<Request>, q: Request)
    requires q in requests
    ensures Owes(requests, q.ticket) > 0
  {
    if requests[|requests| - 1] != q { OwesMember(requests[..|requests| - 1], q); }
  }

  /** With any other number of values the oldest request of the batch is answered twice. */
  lemma FirstIsToldTwice(s: Service, values: Option<nat>, inTime: Request -> bool)
    requires s.active != [] && !Matched(s, values)
    ensures Tells(Predicted(s, values, inTime).responses, s.active[0].ticket) >= Tells(s.responses, s.active[0].ticket) + 2
  {
    hide Paired; hide AllFailed; hide Predicted; hide Tells;
    PredictedIs(s, values, inTime);
    var t, pairs := s.active[0].ticket, s.active[..Pairs(s, values)];
    assert pairs[0] == s.active[0];
    OwesMember(pairs, s.active[0]);
    OwesMember(s.active, s.active[0]);
    PairedTells(s, pairs, inTime, t);
    FailedTells(Paired(s, pairs, inTime), s.active, t);
  }

  /** A returning prediction leaves every request with one terminal response, or owed once, exactly when the model gave one value per
      request or none at all: with any other number, requests that were already answered are answered again as failed. */
  lemma ReturnOnceIff(s: Service, values: Option<nat>, inTime: Request -> bool)
    requires Once(s) && s.active != []
    ensures Once(Predicted(s, values, inTime)) <==> Matched(s, values)
  {
    hide Predicted; hide Tells; hide Owes;
    if Matched(s, values) {
      ReturnKeepsOnce(s, values, inTime);
    } else {
      FirstIsToldTwice(s, values, inTime);
    }
  }

  lemma StepKeeps(s: Service, step: Step, capacity: nat, maxBatch: nat)
    requires Inv(s) && Enabled(s, step) && (step.Return? ==> Matched(s, step.values))
    ensures Inv(Next(s, step, capacity, maxBatch))
  {
    hide Once; hide Balanced; hide InOrder; hide Submit; hide Collect; hide Predicted;
    match step
    case Arrive(contract, verdict) =>
      ArriveKeepsOnce(s, contract, verdict, capacity);
      ArriveKeepsOrder(s, contract, verdict, capacity);
    case Gather(inTime) =>
      GatherKeepsOnce(s, maxBatch, inTime);
      GatherKeepsOrder(s, maxBatch, inTime);
    case Return(values, inTime) =>
      ReturnKeepsOnce(s, values, inTime);
      ReturnKeepsOrder(s, values, inTime);
      ReturnBalancedIff(s, values, inTime);
  }

  // ---- Whole runs -----------------------------------------------------------------------------

  predicate IsRun(states: seq<Service>, steps: seq<Step>, capacity: nat, maxBatch: nat) {
    && |states| == |steps| + 1 && states[0] == IDLE
    && forall i :: 0 <= i < |steps| ==> Enabled(states[i], steps[i]) && states[i + 1] == Next(states[i], steps[i], capacity, maxBatch)
                                        && (steps[i].Return? ==> Matched(states[i], steps[i].values))
  }

  lemma {:induction false} RunKeeps(states: seq<Service>, steps: seq<Step>, capacity: nat, maxBatch: nat, i: nat)
    requires IsRun(states, steps, capacity, maxBatch) && i < |states|
    ensures Inv(states[i])
  {
    hide Inv; hide Next; hide Matched;
    if i == 0 {
      IdleHolds();
    } else {
      RunKeeps(states, steps, capacity, maxBatch, i - 1);
      StepKeeps(states[i - 1], steps[i - 1], capacity, maxBatch);
    }
  }

  lemma IdleHolds()
    ensures Inv(IDLE)
  {
    EmptyHolds(IDLE);
  }

  lemma EmptyHolds(s: Service)
    requires Owed(s) == [] && s.responses == [] && s.submitted == 0 && s.unfinished == 0 && Total(s.counts) == 0 && s.active == []
    ensures Inv(s)
  {}

  /** With submissions between any two waits: every request ever submitted has exactly one terminal response or is still owed, the
      counters add up, completed predictions leave in acceptance order, a batch has one contract, and the queue's own count
      reaches zero exactly when nothing is owed. */
  lemma NothingIsLost(states: seq<Service>, steps: seq<Step>, capacity: nat, maxBatch: nat, i: nat)
    requires IsRun(states, steps, capacity, maxBatch) && i < |states|
    ensures var s := states[i];
            && (forall t: nat :: Tells(s.responses, t) + Owes(Owed(s), t) == if t < s.submitted then 1 else 0)
            && s.submitted == Total(s.counts) + |Owed(s)|
            && CompletedRise(s.responses) && OneContract(s.active)
            && (s.unfinished == 0 <==> Owed(s) == [])
  {
    hide IsRun; hide Tells; hide Owes; hide CompletedRise; hide OneContract; hide Total; hide Rising;
    RunKeeps(states, steps, capacity, maxBatch, i);
  }

  // ---- One value for two requests -------------------------------------------------------------

  lemma TwoJoin(queue: seq<Request>, contract: string, room: nat)
    requires |queue| == 1 && queue[0].contract == contract && room > 0
    ensures Joining(queue, contract, room) == 1
  {}

  lemma TwoScreened(s: Service, a: Request, b: Request, inTime: Request -> bool)
    requires s.active == [] && inTime(a) && inTime(b)
    ensures Screened(s, [a, b], inTime) == s.(active := [a, b])
  {
    assert [a, b][..1] == [a] && [a][..0] == [];
    assert Screened(s, [], inTime) == s;
    assert Screened(s, [a], inTime) == s.(active := [a]);
  }

  lemma TwoCollected(s: Service, maxBatch: nat, inTime: Request -> bool)
    requires s.active == [] && s.carry.None? && |s.queue| == 2 && maxBatch >= 2
    requires s.queue[0].contract == s.queue[1].contract && inTime(s.queue[0]) && inTime(s.queue[1])
    ensures Collect(s, maxBatch, inTime).active == s.queue && Collect(s, maxBatch, inTime).responses == s.responses
  {
    hide Joining; hide Screened;
    TwoJoin(s.queue[1..], s.queue[0].contract, maxBatch - 1);
    assert [s.queue[0]] + s.queue[1..][..1] == [s.queue[0], s.queue[1]] == s.queue;
    TwoScreened(s.(queue := s.queue[1..][1..]), s.queue[0], s.queue[1], inTime);
  }

  lemma OneIsPaired(s: Service, a: Request, b: Request, inTime: Request -> bool)
    requires s.active == [a, b] && inTime(a)
    ensures Predicted(s, Some(1), inTime).responses
         == s.responses + [Response(a.ticket, Completed), Response(a.ticket, Failed), Response(b.ticket, Failed)]
  {
    assert s.active[..1] == [a] && [a, b][..1] == [a] && [a][..0] == [];
    var paired := Paired(s, [a], inTime);
    assert Paired(s, [], inTime) == s;
    assert paired.responses == s.responses + [Response(a.ticket, Completed)];
    assert AllFailed(paired, []) == paired;
    assert AllFailed(paired, [a]).responses == paired.responses + [Response(a.ticket, Failed)];
    assert AllFailed(paired, [a, b]).responses == AllFailed(paired, [a]).responses + [Response(b.ticket, Failed)];
  }

  /** Two requests arrive and are taken as one batch, and the model gives one value: both are answered as failed although the first
      was already answered as completed. */
  lemma OneValueForTwo(contract: string, capacity: nat, maxBatch: nat, inTime: Request -> bool)
    returns (states: seq<Service>, steps: seq<Step>)
    requires capacity >= 2 && maxBatch >= 2 && inTime(Request(0, contract)) && inTime(Request(1, contract))
    ensures IsRun(states, steps, capacity, maxBatch) && |states| == 4 && Enabled(states[3], Return(Some(1), inTime))
    ensures Predicted(states[3], Some(1), inTime).responses == [Response(0, Completed), Response(0, Failed), Response(1, Failed)]
    ensures !Once(Predicted(states[3], Some(1), inTime))
  {
    hide Predicted; hide Collect; hide Once;
    var s1 := Submit(IDLE, contract, Fine, capacity);
    var s2 := Submit(s1, contract, Fine, capacity);
    TwoCollected(s2, maxBatch, inTime);
    var s3 := Collect(s2, maxBatch, inTime);
    steps, states := [Arrive(contract, Fine), Arrive(contract, Fine), Gather(inTime)], [IDLE, s1, s2, s3];
    OneIsPaired(s3, Request(0, contract), Request(1, contract), inTime);
    RunKeeps(states, steps, capacity, maxBatch, 3);
    OnceHeld(s3);
    ReturnOnceIff(s3, Some(1), inTime);
  }

  lemma OnceHeld(s: Service)
    requires Inv(s)
    ensures Once(s)
  {}
}
