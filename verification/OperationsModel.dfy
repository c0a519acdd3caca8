/** At-most-once operations as values: the worker's journal, the supervisor's journal, and the socket between them. */
module OperationsModel {
  import opened Common

  datatype Action = Start | Stop | Halt | Reduce | Resume | Cancel | Flatten
  datatype Status = Processing | Completed | Failed | Unknown

  /** A reviewed request to the supervisor; rest stands for its other fields. */
  datatype Request = Request(group: string, action: Action, run: string, instruments: seq<string>, rest: string)
  datatype Command = Command(action: Action, id: string, run: string, instruments: seq<string>)

  /** An error reply carries neither an identifier nor a status. */
  datatype Reply = Reply(id: Option<string>, status: Option<Status>, ok: bool)
  const ERROR_REPLY := Reply(None, None, false)

  predicate ValidId(id: string) {
    8 <= |id| <= 96 && forall i :: 0 <= i < |id| ==> 'A' <= id[i] <= 'Z' || 'a' <= id[i] <= 'z' || '0' <= id[i] <= '9' || id[i] in "_-"
  }

  // ---- The worker -----------------------------------------------------------------------------

  /** result is the stored response, of which only the ok flag matters here. */
  datatype WorkerRow = WorkerRow(command: Command, status: Status, result: Option<bool>)

  /** busy is the operation whose handler is running under the lock. starts records every handler ever started. */
  datatype Worker = Worker(handlers: set<Action>, journal: map<string, WorkerRow>, closing: bool, busy: Option<string>, alive: bool,
                           starts: seq<string>)

  datatype Ending = Returned(ok: bool) | Raised | Cancelled

  /** Opening the journal marks what was interrupted. */
  function Recovered(journal: map<string, WorkerRow>): map<string, WorkerRow> {
    map id | id in journal :: if journal[id].status.Processing? then journal[id].(status := Unknown) else journal[id]
  }

  function Receipt(journal: map<string, WorkerRow>, id: string): Reply {
    if !ValidId(id) then ERROR_REPLY
    else if id !in journal then Reply(Some(id), Some(Unknown), true)
    else Reply(Some(id), Some(journal[id].status), if journal[id].result.Some? then journal[id].result.value else true)
  }

  datatype Admission = Answered(reply: Reply) | HandlerStarted

  /** A write command, once it holds the lock, up to the start of its handler. */
  function Admit(w: Worker, c: Command): (Worker, Admission) {
    if c.action !in w.handlers || !ValidId(c.id) then (w, Answered(ERROR_REPLY))
    else if c.id in w.journal then
      (w, Answered(if w.journal[c.id].command != c then ERROR_REPLY else Receipt(w.journal, c.id)))
    else if w.closing then
      var journal := w.journal[c.id := WorkerRow(c, Failed, Some(false))];
      (w.(journal := journal), Answered(Receipt(journal, c.id)))
    else
      (w.(journal := w.journal[c.id := WorkerRow(c, Processing, None)], busy := Some(c.id), starts := w.starts + [c.id]), HandlerStarted)
  }

  /** The handler of the busy operation ends; a cancelled one sends no reply. */
  function Finish(w: Worker, ending: Ending): (Worker, Option<Reply>)
    requires w.busy.Some? && w.busy.value in w.journal
  {
    var id := w.busy.value;
    var row := match ending
      case Returned(ok) => w.journal[id].(status := Completed, result := Some(ok))
      case Raised => w.journal[id].(status := Unknown, result := Some(false))
      case Cancelled => w.journal[id].(status := Unknown);
    var journal := w.journal[id := row];
    (w.(journal := journal, busy := None), if ending.Cancelled? then None else Some(Receipt(journal, id)))
  }

  function StartsOf(starts: seq<string>, id: string): nat {
    if starts == [] then 0 else StartsOf(starts[..|starts| - 1], id) + if starts[|starts| - 1] == id then 1 else 0
  }

  // ---- The supervisor -------------------------------------------------------------------------

  datatype SupervisorRow = SupervisorRow(request: Request, receipt: Option<Status>)

  /** waiting is the operation being executed under the lock; sent says whether its command may have left.
      queries are the receipts whose worker is being asked. */
  datatype Supervisor = Supervisor(journal: map<string, SupervisorRow>, waiting: Option<Waiting>, queries: set<string>, alive: bool)
  datatype Waiting = Waiting(id: string, sent: bool)

  datatype Conclusion = NotSendable | Signalled | Launched(ok: bool) | Replied(reply: Reply) | TimedOut

  predicate IsControl(action: Action) { action !in {Start, Stop} }
  predicate IsReconciled(action: Action) { action in {Halt, Reduce, Resume} }

  function CommandOf(request: Request, id: string): Command {
    Command(request.action, id, request.run, if request.action.Flatten? then request.instruments else [])
  }

  function SupervisorRecovered(journal: map<string, SupervisorRow>): map<string, SupervisorRow> {
    map id | id in journal :: if journal[id].receipt.None? then journal[id].(receipt := Some(Unknown)) else journal[id]
  }

  /** The intent is written before anything is sent. None means the request was refused without a row, or answered from one. */
  function Intend(s: Supervisor, id: string, request: Request, prepared: bool): Option<Supervisor> {
    if !ValidId(id) || id in s.journal || !prepared then None
    else Some(s.(journal := s.journal[id := SupervisorRow(request, None)], waiting := Some(Waiting(id, false))))
  }

  function ReceiptFrom(id: string, reply: Reply): Status {
    if reply.id != Some(id) || reply.status.None? then Unknown else reply.status.value
  }

  function Concluded(id: string, c: Conclusion): Status {
    match c
    case NotSendable => Failed
    case Signalled => Completed
    case Launched(ok) => if ok then Completed else Failed
    case Replied(reply) => ReceiptFrom(id, reply)
    case TimedOut => Unknown
  }

  function Conclude(s: Supervisor, c: Conclusion): Supervisor
    requires s.waiting.Some? && s.waiting.value.id in s.journal
  {
    var id := s.waiting.value.id;
    s.(journal := s.journal[id := s.journal[id].(receipt := Some(Concluded(id, c)))], waiting := None)
  }

  /** A receipt is looked up at the worker only while its own answer is open and the action is a reconciled one. */
  predicate Asks(s: Supervisor, id: string) {
    ValidId(id) && id in s.journal && (s.journal[id].receipt.None? || s.journal[id].receipt.value in {Processing, Unknown})
    && IsReconciled(s.journal[id].request.action)
  }

  /** The journal of a worker that is no longer running answers only with a stored result. */
  function StoredReceipt(journal: map<string, WorkerRow>, id: string): Reply {
    if id in journal && journal[id].result.Some? then Reply(Some(id), Some(journal[id].status), journal[id].result.value) else ERROR_REPLY
  }

  function Reconcile(s: Supervisor, id: string, reply: Reply): Supervisor
    requires id in s.journal
  {
    var asked := s.(queries := s.queries - {id});
    if reply.id == Some(id) && reply.status.Some? && reply.status.value in {Completed, Failed} then
      asked.(journal := s.journal[id := s.journal[id].(receipt := reply.status)])
    else asked
  }

  // ---- Both, and the socket -------------------------------------------------------------------

  datatype Answer = Answer(run: string, reply: Reply)

  /** Commands and answers stay in the socket for good: they may be lost, late or seen again. outsiders are the identifiers other
      clients of a worker's socket have used. */
  datatype System = System(workers: map<string, Worker>, supervisor: Supervisor, commands: set<Command>, answers: set<Answer>,
                           outsiders: set<string>)

  datatype Step =
    | NewWorker(run: string, handlers: set<Action>)
    | WorkerRestart(run: string)
    | WorkerCrash(run: string)
    | Quiesce(run: string)
    | Deliver(run: string, command: Command)
    | HandlerEnds(run: string, ending: Ending)
    | WorkerReceipt(run: string, id: string)
    | Outsider(run: string, command: Command)
    | Execute(id: string, request: Request, prepared: bool)
    | Send
    | End(conclusion: Conclusion)
    | Abandon
    | Ask(id: string)
    | Resolve(id: string, reply: Reply)
    | ResolveStored(id: string)
    | SupervisorCrash
    | SupervisorRestart

  function WaitingRow(s: System): SupervisorRow
    requires s.supervisor.waiting.Some? && s.supervisor.waiting.value.id in s.supervisor.journal
  {
    s.supervisor.journal[s.supervisor.waiting.value.id]
  }

  predicate Up(s: System, run: string) { run in s.workers && s.workers[run].alive }

  predicate Executing(s: System) {
    s.supervisor.alive && s.supervisor.waiting.Some? && s.supervisor.waiting.value.id in s.supervisor.journal
  }

  /** Which conclusions are possible: a command that may have left is never concluded as unsendable. */
  predicate CanEnd(s: System, c: Conclusion) {
    && Executing(s)
    && var action := WaitingRow(s).request.action;
       match c
       case NotSendable => !action.Start? && !s.supervisor.waiting.value.sent
       case Signalled => action.Stop?
       case Launched(_) => action.Start?
       case Replied(reply) => IsControl(action) && Answer(WaitingRow(s).request.run, reply) in s.answers
       case TimedOut => !action.Start?
  }

  predicate Enabled(s: System, step: Step) {
    match step
    case NewWorker(run, _) => run !in s.workers
    case WorkerRestart(run) => run in s.workers && !s.workers[run].alive
    case WorkerCrash(run) => Up(s, run)
    case Quiesce(run) => Up(s, run)
    case Deliver(run, c) => Up(s, run) && s.workers[run].busy.None? && c in s.commands && c.run == run
    case HandlerEnds(run, _) => Up(s, run) && s.workers[run].busy.Some? && s.workers[run].busy.value in s.workers[run].journal
    case WorkerReceipt(run, _) => Up(s, run)
    case Outsider(run, c) => Up(s, run) && s.workers[run].busy.None? && c.id !in s.supervisor.journal
    case Execute(id, _, _) => s.supervisor.alive && s.supervisor.waiting.None? && id !in s.outsiders
    case Send => Executing(s) && IsControl(WaitingRow(s).request.action)
    case End(c) => CanEnd(s, c)
    // the execution is cancelled while the supervisor lives on, and leaves its intent unanswered
    case Abandon => Executing(s)
    case Ask(id) => s.supervisor.alive && Asks(s.supervisor, id)
    case Resolve(id, reply) =>
      s.supervisor.alive && id in s.supervisor.queries && id in s.supervisor.journal
      && Answer(s.supervisor.journal[id].request.run, reply) in s.answers
    case ResolveStored(id) =>
      s.supervisor.alive && id in s.supervisor.queries && id in s.supervisor.journal
      && s.supervisor.journal[id].request.run in s.workers
    case SupervisorCrash => s.supervisor.alive
    case SupervisorRestart => !s.supervisor.alive
  }

  function WithWorker(s: System, run: string, w: Worker): System { s.(workers := s.workers[run := w]) }

  function Admitted(s: System, run: string, c: Command): System
    requires run in s.workers
  {
    var (w, admission) := Admit(s.workers[run], c);
    WithWorker(s, run, w).(answers := if admission.Answered? then s.answers + {Answer(run, admission.reply)} else s.answers)
  }

  function Next(s: System, step: Step): System
    requires Enabled(s, step)
  {
    match step
    case NewWorker(run, handlers) => WithWorker(s, run, Worker(handlers, map[], false, None, true, []))
    case WorkerRestart(run) =>
      WithWorker(s, run, s.workers[run].(journal := Recovered(s.workers[run].journal), closing := false, busy := None, alive := true))
    case WorkerCrash(run) => WithWorker(s, run, s.workers[run].(alive := false, busy := None))
    case Quiesce(run) => WithWorker(s, run, s.workers[run].(closing := true))
    case Deliver(run, c) => Admitted(s, run, c)
    case HandlerEnds(run, ending) =>
      var (w, reply) := Finish(s.workers[run], ending);
      WithWorker(s, run, w).(answers := if reply.Some? then s.answers + {Answer(run, reply.value)} else s.answers)
    case WorkerReceipt(run, id) => s.(answers := s.answers + {Answer(run, Receipt(s.workers[run].journal, id))})
    case Outsider(run, c) => Admitted(s, run, c).(outsiders := s.outsiders + {c.id})
    case Execute(id, request, prepared) =>
      var intended := Intend(s.supervisor, id, request, prepared);
      if intended.Some? then s.(supervisor := intended.value) else s
    case Send =>
      var waiting := s.supervisor.waiting.value;
      s.(commands := s.commands + {CommandOf(WaitingRow(s).request, waiting.id)},
         supervisor := s.supervisor.(waiting := Some(waiting.(sent := true))))
    case End(c) => s.(supervisor := Conclude(s.supervisor, c))
    case Abandon => s.(supervisor := s.supervisor.(waiting := None))
    case Ask(id) => s.(supervisor := s.supervisor.(queries := s.supervisor.queries + {id}))
    case Resolve(id, reply) => s.(supervisor := Reconcile(s.supervisor, id, reply))
    case ResolveStored(id) =>
      s.(supervisor := Reconcile(s.supervisor, id, StoredReceipt(s.workers[s.supervisor.journal[id].request.run].journal, id)))
    case SupervisorCrash => s.(supervisor := s.supervisor.(alive := false, waiting := None, queries := {}))
    case SupervisorRestart => s.(supervisor := s.supervisor.(journal := SupervisorRecovered(s.supervisor.journal), alive := true))
  }

  const NOTHING := System(map[], Supervisor(map[], None, {}, true), {}, {}, {})

  /** Any continuation, from any state. */
  predicate IsPath(states: seq<System>, steps: seq<Step>) {
    && |states| == |steps| + 1
    && forall i :: 0 <= i < |steps| ==> Enabled(states[i], steps[i]) && states[i + 1] == Next(states[i], steps[i])
  }

  predicate IsRun(states: seq<System>, steps: seq<Step>) { IsPath(states, steps) && states[0] == NOTHING }
}
