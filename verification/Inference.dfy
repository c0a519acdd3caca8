/** The inference service over its queue; each method runs between two waits of the event loop. */
module Inference {
  import opened Common
  import M = InferenceModel
  import opened InferenceProofs

  class InferenceService {
    const capacity: nat
    const maxBatch: nat
    var queue: seq<M.Request>
    var carry: Option<M.Request>
    var active: seq<M.Request>
    var unfinished: int
    var counts: M.Counts
    var responses: seq<M.Response>
    var submitted: nat

    ghost function View(): M.Service
      reads this
    {
      M.Service(queue, carry, active, unfinished, counts, responses, submitted)
    }

    constructor (capacity: nat, maxBatch: nat)
      ensures View() == M.IDLE && this.capacity == capacity && this.maxBatch == maxBatch
    {
      this.capacity, this.maxBatch := capacity, maxBatch;
      queue, carry, active, unfinished := [], None, [], 0;
      counts, responses, submitted := M.Counts(0, 0, 0, 0, 0), [], 0;
    }

    /** Counts and emits one terminal response. */
    method Respond(ticket: nat, outcome: M.Outcome)
      modifies `counts, `responses
      ensures View() == M.Answered(old(View()), ticket, outcome)
    {
      match outcome {
        case Completed => counts := counts.(completed := counts.completed + 1);
        case Failed => counts := counts.(failed := counts.failed + 1);
        case Expired => counts := counts.(expired := counts.expired + 1);
        case QueueRejected => counts := counts.(queueRejected := counts.queueRejected + 1);
      }
      responses := responses + [M.Response(ticket, outcome)];
    }

    method Submit(contract: string, verdict: M.Verdict)
      requires Inv(View())
      modifies `submitted, `counts, `responses, `queue, `unfinished
      ensures View() == M.Submit(old(View()), contract, verdict, capacity) && Inv(View())
    {
      hide Inv;
      StepKeeps(View(), M.Arrive(contract, verdict), capacity, maxBatch);
      var ticket := submitted;
      submitted := submitted + 1;
      match verdict {
        case Late => Respond(ticket, M.Expired);
        case Invalid => Respond(ticket, M.Failed);
        case Fine =>
          if |queue| >= capacity {
            Respond(ticket, M.QueueRejected);
          } else {
            queue, unfinished := queue + [M.Request(ticket, contract)], unfinished + 1;
            counts := counts.(accepted := counts.accepted + 1);
          }
      }
    }

    /** The carried request or the oldest queued one starts the batch. */
    method TakeBatch() returns (batch: seq<M.Request>)
      requires M.CanCollect(View())
      modifies `queue, `carry
      ensures (View(), batch) == M.Collected(old(View()), maxBatch)
    {
      hide M.Joining;
      var first;
      if carry.Some? { first := carry.value; } else { first, queue := queue[0], queue[1..]; }
      carry := None;
      batch := FillBatch(first);
    }

    method FillBatch(first: M.Request) returns (batch: seq<M.Request>)
      requires carry.None?
      modifies `queue, `carry
      ensures var rest := old(queue);
              var n := M.Joining(rest, first.contract, if maxBatch == 0 then 0 else maxBatch - 1);
              batch == [first] + rest[..n]
              && (if n < |rest| && 1 + n < maxBatch then queue == rest[n + 1..] && carry == Some(rest[n]) else queue == rest[n..] && carry.None?)
    {
      hide M.Joining;
      batch := [first];
      ghost var rest := queue;
      ghost var room := if maxBatch == 0 then 0 else maxBatch - 1;
      while |batch| < maxBatch && queue != []
        invariant carry.None? && Taken(rest, first, batch, queue) && |batch| - 1 <= room
        invariant forall i :: 0 <= i < |batch| - 1 ==> rest[i].contract == first.contract
        decreases |queue|
      {
        hide Taken;
        var item := queue[0];
        TakeOne(rest, first, batch, queue);
        if item.contract != first.contract {
          JoiningIs(rest, first.contract, room, |batch| - 1);
          queue := queue[1..];
          carry := Some(item);
          return;
        }
        queue := queue[1..];
        batch := batch + [item];
      }
      JoiningIs(rest, first.contract, room, |batch| - 1);
    }

    /** Up to the point where the model is called: late requests are answered and done. */
    method Gather(inTime: M.Request -> bool)
      requires Inv(View()) && M.CanCollect(View())
      modifies `queue, `carry, `active, `unfinished, `counts, `responses
      ensures View() == M.Collect(old(View()), maxBatch, inTime) && Inv(View())
    {
      hide Inv; hide M.Collected;
      StepKeeps(View(), M.Gather(inTime), capacity, maxBatch);
      var batch := TakeBatch();
      ghost var taken := View();
      for i := 0 to |batch|
        invariant View() == M.Screened(taken, batch[..i], inTime)
      {
        assert batch[..i + 1][..i] == batch[..i];
        if inTime(batch[i]) {
          active := active + [batch[i]];
        } else {
          Respond(batch[i].ticket, M.Expired);
          unfinished := unfinished - 1;
        }
      }
      assert batch[..|batch|] == batch;
    }

    method Pair(n: nat, inTime: M.Request -> bool)
      requires n <= |active|
      modifies `counts, `responses
      ensures View() == M.Paired(old(View()), active[..n], inTime)
    {
      for i := 0 to n
        invariant View() == M.Paired(old(View()), active[..i], inTime)
      {
        assert active[..i + 1][..i] == active[..i];
        Respond(active[i].ticket, if inTime(active[i]) then M.Completed else M.Expired);
      }
    }

    method FailAll()
      modifies `counts, `responses
      ensures View() == M.AllFailed(old(View()), active)
    {
      for i := 0 to |active|
        invariant View() == M.AllFailed(old(View()), active[..i])
      {
        assert active[..i + 1][..i] == active[..i];
        Respond(active[i].ticket, M.Failed);
      }
      assert active[..|active|] == active;
    }

    /** After the model call: values is how many it returned, None when it raised. */
    method Return(values: Option<nat>, inTime: M.Request -> bool)
      requires Inv(View())
      modifies `active, `unfinished, `counts, `responses
      ensures View() == M.Predicted(old(View()), values, inTime)
      ensures old(Matched(View(), values)) ==> Inv(View())
    {
      hide Inv; hide M.Paired; hide M.AllFailed; hide M.Predicted;
      PredictedIs(View(), values, inTime);
      if Matched(View(), values) { ReturnKeepsInv(View(), values, inTime); }
      var n := if values.None? then 0 else if values.value < |active| then values.value else |active|;
      Pair(n, inTime);
      if values != Some(|active|) { FailAll(); }
      unfinished, active := unfinished - |active|, [];
    }

    /** join: waits until nothing is owed. */
    predicate Joined()
      reads this
    {
      unfinished == 0
    }

    lemma JoinedMeansNothingOwed()
      requires Inv(View())
      ensures Joined() <==> queue == [] && carry.None? && active == []
    {}
  }

  /** The batch so far is the first request and a prefix of the others; the rest of them are still queued. */
  ghost predicate Taken(rest: seq<M.Request>, first: M.Request, batch: seq<M.Request>, queue: seq<M.Request>) {
    1 <= |batch| <= |rest| + 1 && batch == [first] + rest[..|batch| - 1] && queue == rest[|batch| - 1..]
  }

  lemma TakeOne(rest: seq<M.Request>, first: M.Request, batch: seq<M.Request>, queue: seq<M.Request>)
    requires Taken(rest, first, batch, queue) && queue != []
    ensures |batch| >= 1 && |batch| - 1 < |rest| && rest[|batch| - 1] == queue[0] && queue[1..] == rest[|batch|..]
    ensures batch == [first] + rest[..|batch| - 1] && Taken(rest, first, batch + [queue[0]], queue[1..])
  {}

  lemma ReturnKeepsInv(s: M.Service, values: Option<nat>, inTime: M.Request -> bool)
    requires Inv(s) && Matched(s, values)
    ensures Inv(M.Predicted(s, values, inTime))
  {
    hide Once; hide InOrder; hide M.Predicted; hide Total;
    ReturnKeepsOnce(s, values, inTime);
    ReturnKeepsOrder(s, values, inTime);
    PredictedCounts(s, values, inTime);
  }

  lemma {:induction false} JoiningIs(queue: seq<M.Request>, contract: string, room: nat, n: nat)
    requires n <= |queue| && n <= room && forall i :: 0 <= i < n ==> queue[i].contract == contract
    requires n == |queue| || n == room || queue[n].contract != contract
    ensures M.Joining(queue, contract, room) == n
  {}
}
