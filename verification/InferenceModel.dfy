/** The inference queue as values, between the points where the worker waits. */
module InferenceModel {
  import opened Common

  /** A request is known by its submission number, the contract it is batched under, and whether its size and fields are valid. */
  datatype Request = Request(ticket: nat, contract: string)
  datatype Verdict = Invalid | Late | Fine
  datatype Outcome = Completed | Failed | Expired | QueueRejected

  /** A terminal response. */
  datatype Response = Response(ticket: nat, outcome: Outcome)

  datatype Counts = Counts(accepted: nat, completed: nat, failed: nat, expired: nat, queueRejected: nat)

  /** unfinished is the queue's own count of tasks not yet done. active is the batch being predicted; submitted counts every request
      ever submitted. */
  datatype Service = Service(queue: seq<Request>, carry: Option<Request>, active: seq<Request>, unfinished: int, counts: Counts,
                             responses: seq<Response>, submitted: nat)

  const IDLE := Service([], None, [], 0, Counts(0, 0, 0, 0, 0), [], 0)

  function Counted(c: Counts, outcome: Outcome): Counts {
    match outcome
    case Completed => c.(completed := c.completed + 1)
    case Failed => c.(failed := c.failed + 1)
    case Expired => c.(expired := c.expired + 1)
    case QueueRejected => c.(queueRejected := c.queueRejected + 1)
  }

  function Answered(s: Service, ticket: nat, outcome: Outcome): Service {
    s.(counts := Counted(s.counts, outcome), responses := s.responses + [Response(ticket, outcome)])
  }

  /** One request arrives; capacity is the published queue size. */
  function Submit(s: Service, contract: string, verdict: Verdict, capacity: nat): Service {
    var arrived := s.(submitted := s.submitted + 1);
    if verdict.Late? then Answered(arrived, s.submitted, Expired)
    else if verdict.Invalid? then Answered(arrived, s.submitted, Failed)
    else if |s.queue| >= capacity then Answered(arrived, s.submitted, QueueRejected)
    else arrived.(queue := s.queue + [Request(s.submitted, contract)], unfinished := s.unfinished + 1,
                  counts := s.counts.(accepted := s.counts.accepted + 1))
  }

  /** How many of the queued requests join a batch of the given contract. */
  function Joining(queue: seq<Request>, contract: string, room: nat): (n: nat)
    ensures n <= |queue| && n <= room
    ensures forall i :: 0 <= i < n ==> queue[i].contract == contract
    ensures n < |queue| && n < room ==> queue[n].contract != contract
  {
    if queue == [] || room == 0 || queue[0].contract != contract then 0 else 1 + Joining(queue[1..], contract, room - 1)
  }

  predicate CanCollect(s: Service) { s.active == [] && (s.carry.Some? || s.queue != []) }

  /** The next batch: the carried request or the oldest queued one, then queued ones of its contract; the first of another
      contract is carried over. */
  function Collected(s: Service, maxBatch: nat): (Service, seq<Request>)
    requires CanCollect(s)
  {
    var first := if s.carry.Some? then s.carry.value else s.queue[0];
    var rest := if s.carry.Some? then s.queue else s.queue[1..];
    var n := Joining(rest, first.contract, if maxBatch == 0 then 0 else maxBatch - 1);
    var carries := n < |rest| && 1 + n < maxBatch;
    (s.(queue := if carries then rest[n + 1..] else rest[n..], carry := if carries then Some(rest[n]) else None), [first] + rest[..n])
  }

  /** Requests of the batch that are no longer in time are answered at once; the others become active. */
  function Screened(s: Service, batch: seq<Request>, inTime: Request -> bool): Service {
    if batch == [] then s else
    var t := Screened(s, batch[..|batch| - 1], inTime);
    var r := batch[|batch| - 1];
    if inTime(r) then t.(active := t.active + [r])
    else Answered(t, r.ticket, Expired).(unfinished := t.unfinished - 1)
  }

  function Collect(s: Service, maxBatch: nat, inTime: Request -> bool): Service
    requires CanCollect(s)
  {
    var (t, batch) := Collected(s, maxBatch);
    Screened(t, batch, inTime)
  }

  /** The values are paired with the active requests in order. */
  function Paired(s: Service, requests: seq<Request>, inTime: Request -> bool): Service {
    if requests == [] then s else
    var r := requests[|requests| - 1];
    Answered(Paired(s, requests[..|requests| - 1], inTime), r.ticket, if inTime(r) then Completed else Expired)
  }

  function AllFailed(s: Service, requests: seq<Request>): Service {
    if requests == [] then s else Answered(AllFailed(s, requests[..|requests| - 1]), requests[|requests| - 1].ticket, Failed)
  }

  /** values is the number of values the model returned, None when it raised. A count that differs from the batch raises after the
      pairs there are; and whatever raises fails the whole batch. */
  function Predicted(s: Service, values: Option<nat>, inTime: Request -> bool): Service {
    var n := |s.active|;
    var paired := if values.None? then s else Paired(s, s.active[..if values.value < n then values.value else n], inTime);
    var told := if values == Some(n) then paired else AllFailed(paired, s.active);
    told.(active := [], unfinished := told.unfinished - n)
  }

  datatype Step =
    | Arrive(contract: string, verdict: Verdict)
    | Gather(inTime: Request -> bool)
    | Return(values: Option<nat>, inTime: Request -> bool)

  predicate Enabled(s: Service, step: Step) {
    match step
    case Arrive(_, _) => true
    case Gather(_) => CanCollect(s)
    case Return(_, _) => s.active != []
  }

  function Next(s: Service, step: Step, capacity: nat, maxBatch: nat): Service
    requires Enabled(s, step)
  {
    match step
    case Arrive(contract, verdict) => Submit(s, contract, verdict, capacity)
    case Gather(inTime) => Collect(s, maxBatch, inTime)
    case Return(values, inTime) => Predicted(s, values, inTime)
  }
}
