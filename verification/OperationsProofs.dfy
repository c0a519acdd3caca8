/** Two-tier at-most-once: over crashes, timeouts, repeats and late deliveries, handlers start once and receipts agree. */
module OperationsProofs {
  import opened Common
  import opened OperationsModel

  // ---- One worker -----------------------------------------------------------------------------

  /** A handler was started once for exactly the operations that have a row other than a refused one. */
  ghost predicate WorkerInv(w: Worker) {
    && (forall id :: id in w.journal ==> w.journal[id].command.id == id)
    && (forall id :: StartsOf(w.starts, id) == if id in w.journal && !w.journal[id].status.Failed? then 1 else 0)
    && (w.busy.Some? ==> w.alive && w.busy.value in w.journal)
    && (w.alive ==> forall id :: id in w.journal ==> (w.journal[id].status.Processing? <==> w.busy == Some(id)))
  }

  /** Rows are never removed or given another command, and settled rows never change their status. */
  ghost predicate Advances(w: Worker, v: Worker) {
    forall id :: id in w.journal ==>
      (id in v.journal && v.journal[id].command == w.journal[id].command
       && (w.journal[id].status in {Completed, Failed} ==> v.journal[id].status == w.journal[id].status))
  }

  lemma StartsAppend(starts: seq<string>, id: string)
    ensures forall x :: StartsOf(starts + [id], x) == StartsOf(starts, x) + if x == id then 1 else 0
  {}

  lemma AdmitKeeps(w: Worker, c: Command)
    requires WorkerInv(w) && w.alive && w.busy.None?
    ensures var v := Admit(w, c).0;
            && WorkerInv(v) && Advances(w, v) && v.alive
            && (forall id :: id in v.journal ==> id in w.journal || (id == c.id && v.journal[id].command == c))
  {
    hide ValidId; hide StartsOf;
    StartsAppend(w.starts, c.id);
  }

  /** A reply names a settled status only when the journal has it. */
  lemma AdmitAnswers(w: Worker, c: Command)
    ensures var (v, a) := Admit(w, c); a.Answered? ==> Truthful(v.journal, a.reply)
  {}

  ghost predicate Truthful(journal: map<string, WorkerRow>, reply: Reply) {
    reply.id.Some? && reply.status.Some? && reply.status.value in {Completed, Failed} ==>
      (reply.id.value in journal && journal[reply.id.value].status == reply.status.value)
  }

  lemma FinishKeeps(w: Worker, ending: Ending)
    requires WorkerInv(w) && w.busy.Some? && w.busy.value in w.journal
    ensures var (v, reply) := Finish(w, ending);
            && WorkerInv(v) && Advances(w, v) && v.journal.Keys == w.journal.Keys
            && (reply.Some? ==> Truthful(v.journal, reply.value))
  {}

  lemma RestartKeeps(w: Worker)
    requires WorkerInv(w) && !w.alive
    ensures var v := w.(journal := Recovered(w.journal), closing := false, busy := None, alive := true);
            WorkerInv(v) && Advances(w, v) && v.journal.Keys == w.journal.Keys
  {}

  // ---- The system -----------------------------------------------------------------------------

  ghost predicate HasRow(s: System, run: string, id: string) { run in s.workers && id in s.workers[run].journal }

  ghost predicate WorkersInv(s: System) { forall run :: run in s.workers ==> WorkerInv(s.workers[run]) }

  /** Every command in the socket is the one its operation calls for. */
  ghost predicate CommandsInv(s: System) {
    forall c :: c in s.commands ==> c.id in s.supervisor.journal && c == CommandOf(s.supervisor.journal[c.id].request, c.id)
  }

  /** Every row of a worker belongs to an outsider, or to the one request of its operation at that request's run. */
  ghost predicate RowsInv(s: System) {
    forall run, id :: HasRow(s, run, id) ==>
      if id in s.supervisor.journal then s.workers[run].journal[id].command in s.commands && s.workers[run].journal[id].command.run == run
      else id in s.outsiders
  }

  ghost predicate OutsidersInv(s: System) { forall id :: id in s.outsiders ==> id !in s.supervisor.journal }

  ghost predicate AnswersInv(s: System) {
    forall a :: a in s.answers ==> a.run in s.workers && Truthful(s.workers[a.run].journal, a.reply)
  }

  /** The worker of the operation's run has it under a status. */
  ghost predicate WorkerSays(s: System, id: string, status: Status)
    requires id in s.supervisor.journal
  {
    var run := s.supervisor.journal[id].request.run;
    HasRow(s, run, id) && s.workers[run].journal[id].status == status
  }

  predicate Waits(s: System, id: string) { s.supervisor.waiting.Some? && s.supervisor.waiting.value.id == id }

  /** The operation was refused by its worker, or its command never left and never will. */
  ghost predicate Dead(s: System, id: string)
    requires id in s.supervisor.journal
  {
    || WorkerSays(s, id, Failed)
    || (CommandOf(s.supervisor.journal[id].request, id) !in s.commands && !Waits(s, id))
  }

  ghost predicate ReceiptsInv(s: System) {
    forall id :: id in s.supervisor.journal && IsControl(s.supervisor.journal[id].request.action) ==>
      && (s.supervisor.journal[id].receipt == Some(Completed) ==> WorkerSays(s, id, Completed))
      && (s.supervisor.journal[id].receipt == Some(Failed) ==> Dead(s, id))
  }

  ghost predicate WaitingInv(s: System) {
    s.supervisor.waiting.Some? ==>
      var w := s.supervisor.waiting.value;
      s.supervisor.alive && w.id in s.supervisor.journal && (!w.sent ==> CommandOf(s.supervisor.journal[w.id].request, w.id) !in s.commands)
  }

  ghost predicate QueriesInv(s: System) {
    forall id :: id in s.supervisor.queries ==> id in s.supervisor.journal
  }

  ghost predicate Inv(s: System) {
    && WorkersInv(s) && CommandsInv(s) && RowsInv(s) && OutsidersInv(s) && AnswersInv(s) && ReceiptsInv(s) && WaitingInv(s) && QueriesInv(s)
  }

  /** A worker moves on, answering more: nothing the supervisor relies on is taken back. */
  function Moved(s: System, run: string, v: Worker, more: set<Answer>, outsiders: set<string>): System {
    s.(workers := s.workers[run := v], answers := s.answers + more, outsiders := outsiders)
  }

  lemma MovedReceipts(s: System, run: string, v: Worker, more: set<Answer>, outsiders: set<string>)
    requires ReceiptsInv(s) && run in s.workers && Advances(s.workers[run], v)
    ensures ReceiptsInv(Moved(s, run, v, more, outsiders))
  {}

  lemma MovedAnswers(s: System, run: string, v: Worker, more: set<Answer>, outsiders: set<string>)
    requires AnswersInv(s) && run in s.workers && Advances(s.workers[run], v)
    requires forall a :: a in more ==> a.run == run && Truthful(v.journal, a.reply)
    ensures AnswersInv(Moved(s, run, v, more, outsiders))
  {}

  lemma WorkerMoves(s: System, run: string, v: Worker, more: set<Answer>, outsiders: set<string>)
    requires Inv(s) && run in s.workers && WorkerInv(v) && Advances(s.workers[run], v)
    requires s.outsiders <= outsiders && forall id :: id in outsiders ==> id !in s.supervisor.journal
    requires forall a :: a in more ==> a.run == run && Truthful(v.journal, a.reply)
    requires forall id :: id in v.journal && id !in s.workers[run].journal ==>
               if id in s.supervisor.journal then v.journal[id].command in s.commands && v.journal[id].command.run == run else id in outsiders
    ensures Inv(Moved(s, run, v, more, outsiders))
  {
    hide WorkerInv; hide CommandOf; hide ReceiptsInv; hide AnswersInv; hide Truthful;
    MovedReceipts(s, run, v, more, outsiders);
    MovedAnswers(s, run, v, more, outsiders);
  }

  lemma DeliverKeeps(s: System, run: string, c: Command)
    requires Inv(s) && Enabled(s, Deliver(run, c))
    ensures Inv(Next(s, Deliver(run, c)))
  {
    hide Admit; hide WorkerInv; hide CommandOf; hide Advances; hide Truthful; hide ReceiptsInv; hide WaitingInv;
    AdmitKeeps(s.workers[run], c);
    AdmitAnswers(s.workers[run], c);
    var (v, a) := Admit(s.workers[run], c);
    WorkerMoves(s, run, v, if a.Answered? then {Answer(run, a.reply)} else {}, s.outsiders);
    assert s.answers + {} == s.answers;
  }

  lemma OutsiderKeeps(s: System, run: string, c: Command)
    requires Inv(s) && Enabled(s, Outsider(run, c))
    ensures Inv(Next(s, Outsider(run, c)))
  {
    hide Admit; hide WorkerInv; hide CommandOf; hide Advances; hide Truthful; hide ReceiptsInv; hide WaitingInv;
    AdmitKeeps(s.workers[run], c);
    AdmitAnswers(s.workers[run], c);
    var (v, a) := Admit(s.workers[run], c);
    WorkerMoves(s, run, v, if a.Answered? then {Answer(run, a.reply)} else {}, s.outsiders + {c.id});
    assert s.answers + {} == s.answers;
  }

  lemma HandlerEndsKeeps(s: System, run: string, ending: Ending)
    requires Inv(s) && Enabled(s, HandlerEnds(run, ending))
    ensures Inv(Next(s, HandlerEnds(run, ending)))
  {
    hide Finish; hide WorkerInv; hide CommandOf; hide Advances; hide Truthful; hide ReceiptsInv; hide WaitingInv;
    FinishKeeps(s.workers[run], ending);
    var (v, reply) := Finish(s.workers[run], ending);
    WorkerMoves(s, run, v, if reply.Some? then {Answer(run, reply.value)} else {}, s.outsiders);
    assert s.answers + {} == s.answers;
  }

  lemma WorkerStepKeeps(s: System, step: Step)
    requires Inv(s) && Enabled(s, step)
    requires step.NewWorker? || step.WorkerRestart? || step.WorkerCrash? || step.Quiesce? || step.WorkerReceipt?
    ensures Inv(Next(s, step))
  {
    hide CommandOf; hide ReceiptsInv; hide WaitingInv; hide StartsOf; hide ValidId; hide Recovered;
    assert s.answers + {} == s.answers;
    match step
    case NewWorker(run, handlers) => NewWorkerKeeps(s, run, handlers);
    case WorkerRestart(run) =>
      RestartKeeps(s.workers[run]);
      WorkerMoves(s, run, Next(s, step).workers[run], {}, s.outsiders);
    case WorkerCrash(run) => WorkerMoves(s, run, Next(s, step).workers[run], {}, s.outsiders);
    case Quiesce(run) => WorkerMoves(s, run, Next(s, step).workers[run], {}, s.outsiders);
    case WorkerReceipt(run, id) =>
      WorkerMoves(s, run, s.workers[run], {Answer(run, Receipt(s.workers[run].journal, id))}, s.outsiders);
      assert s.workers[run := s.workers[run]] == s.workers;
  }

  lemma NewWorkerKeeps(s: System, run: string, handlers: set<Action>)
    requires Inv(s) && run !in s.workers
    ensures Inv(WithWorker(s, run, Worker(handlers, map[], false, None, true, [])))
  {
    hide CommandOf; hide Truthful; hide WorkerInv; hide ReceiptsInv; hide RowsInv;
    var w := Worker(handlers, map[], false, None, true, []);
    NoRowsHold(handlers);
    EmptyWorkerKeepsRows(s, run, w);
    EmptyWorkerKeepsReceipts(s, run, w);
  }

  lemma NoRowsHold(handlers: set<Action>)
    ensures WorkerInv(Worker(handlers, map[], false, None, true, []))
  {}

  lemma EmptyWorkerKeepsRows(s: System, run: string, w: Worker)
    requires RowsInv(s) && run !in s.workers && w.journal == map[]
    ensures RowsInv(WithWorker(s, run, w))
  {}

  lemma EmptyWorkerKeepsReceipts(s: System, run: string, w: Worker)
    requires ReceiptsInv(s) && run !in s.workers && w.journal == map[]
    ensures ReceiptsInv(WithWorker(s, run, w))
  {
    hide CommandOf;
  }

  // ---- The supervisor's own steps -------------------------------------------------------------

  lemma ExecuteKeeps(s: System, id: string, request: Request, prepared: bool)
    requires Inv(s) && Enabled(s, Execute(id, request, prepared))
    ensures Inv(Next(s, Execute(id, request, prepared)))
  {}

  lemma SendKeeps(s: System)
    requires Inv(s) && Enabled(s, Send)
    ensures Inv(Next(s, Send))
  {
    hide WorkerInv; hide Truthful;
  }

  lemma EndKeeps(s: System, c: Conclusion)
    requires Inv(s) && Enabled(s, End(c))
    ensures Inv(Next(s, End(c)))
  {
    hide WorkerInv;
  }

  lemma ReconcileKeeps(s: System, id: string, reply: Reply)
    requires Inv(s) && id in s.supervisor.journal && id in s.supervisor.queries
    requires s.supervisor.journal[id].request.run in s.workers
    requires Truthful(s.workers[s.supervisor.journal[id].request.run].journal, reply)
    ensures Inv(s.(supervisor := Reconcile(s.supervisor, id, reply)))
  {
    hide WorkerInv;
  }

  lemma StepKeeps(s: System, step: Step)
    requires Inv(s) && Enabled(s, step)
    ensures Inv(Next(s, step))
  {
    hide WorkersInv; hide RowsInv; hide ReceiptsInv; hide Reconcile; hide Admit; hide Finish; hide Intend; hide Conclude; hide Truthful;
    match step
    case NewWorker(_, _) => WorkerStepKeeps(s, step);
    case WorkerRestart(_) => WorkerStepKeeps(s, step);
    case WorkerCrash(_) => WorkerStepKeeps(s, step);
    case Quiesce(_) => WorkerStepKeeps(s, step);
    case WorkerReceipt(_, _) => WorkerStepKeeps(s, step);
    case Deliver(run, c) => DeliverKeeps(s, run, c);
    case Outsider(run, c) => OutsiderKeeps(s, run, c);
    case HandlerEnds(run, ending) => HandlerEndsKeeps(s, run, ending);
    case Execute(id, request, prepared) => ExecuteKeeps(s, id, request, prepared);
    case Send => SendKeeps(s);
    case End(c) => EndKeeps(s, c);
    case Resolve(id, reply) => ReconcileKeeps(s, id, reply);
    case ResolveStored(id) =>
      StoredIsTruthful(s.workers[s.supervisor.journal[id].request.run].journal, id);
      ReconcileKeeps(s, id, StoredReceipt(s.workers[s.supervisor.journal[id].request.run].journal, id));
    case _ => QuietSteps(s, step);
  }

  lemma StoredIsTruthful(journal: map<string, WorkerRow>, id: string)
    ensures Truthful(journal, StoredReceipt(journal, id))
  {}

  lemma QuietSteps(s: System, step: Step)
    requires Inv(s) && Enabled(s, step) && (step.Ask? || step.Abandon? || step.SupervisorCrash? || step.SupervisorRestart?)
    ensures Inv(Next(s, step))
  {
    hide WorkerInv; hide Truthful; hide CommandOf;
  }

  // ---- Whole runs -----------------------------------------------------------------------------

  lemma {:induction false} RunKeeps(states: seq<System>, steps: seq<Step>, i: nat)
    requires IsRun(states, steps) && i < |states|
    ensures Inv(states[i])
  {
    hide Inv; hide Enabled; hide Next;
    if i == 0 {
      NothingHolds();
    } else {
      RunKeeps(states, steps, i - 1);
      StepKeeps(states[i - 1], steps[i - 1]);
    }
  }

  lemma NothingHolds()
    ensures Inv(NOTHING)
  {}

  /** Each worker starts each handler at most once, and an operation of the supervisor starts at one worker only,
      under the command of its one request. */
  lemma HandlersStartAtMostOnce(states: seq<System>, steps: seq<Step>, i: nat, run: string, id: string)
    requires IsRun(states, steps) && i < |states| && run in states[i].workers
    ensures var s := states[i]; var n := StartsOf(s.workers[run].starts, id);
            && n <= 1
            && (n == 1 && id in s.supervisor.journal ==>
                  HasRow(s, run, id) && s.workers[run].journal[id].command == CommandOf(s.supervisor.journal[id].request, id)
                  && s.supervisor.journal[id].request.run == run)
  {
    hide IsRun; hide Truthful;
    RunKeeps(states, steps, i);
    var s := states[i];
    assert WorkerInv(s.workers[run]);
    if HasRow(s, run, id) && id in s.supervisor.journal { assert s.workers[run].journal[id].command.id == id; }
  }

  /** What a step never takes back: an operation's request, and its death. */
  lemma StepIsFinal(s: System, step: Step, id: string)
    requires Inv(s) && Enabled(s, step) && id in s.supervisor.journal
    ensures id in Next(s, step).supervisor.journal && Next(s, step).supervisor.journal[id].request == s.supervisor.journal[id].request
    ensures Dead(s, id) ==> Dead(Next(s, step), id)
  {
    hide Enabled; hide Next; hide WorkerSays; hide CommandOf; hide WorkersInv; hide CommandsInv; hide RowsInv; hide ReceiptsInv;
    CommandStays(s, step, id);
    if WorkerSays(s, id, Failed) { RefusalStays(s, step, id); }
  }

  lemma CommandStays(s: System, step: Step, id: string)
    requires Inv(s) && Enabled(s, step) && id in s.supervisor.journal
    ensures id in Next(s, step).supervisor.journal && Next(s, step).supervisor.journal[id].request == s.supervisor.journal[id].request
    ensures CommandOf(s.supervisor.journal[id].request, id) !in s.commands && !Waits(s, id) ==>
              CommandOf(s.supervisor.journal[id].request, id) !in Next(s, step).commands && !Waits(Next(s, step), id)
  {
    hide ValidId; hide WorkersInv; hide AnswersInv; hide ReceiptsInv; hide Admit; hide Finish; hide Recovered; hide RowsInv;
  }

  lemma RefusalStays(s: System, step: Step, id: string)
    requires WorkersInv(s) && Enabled(s, step) && id in s.supervisor.journal && WorkerSays(s, id, Failed)
    requires id in Next(s, step).supervisor.journal && Next(s, step).supervisor.journal[id].request == s.supervisor.journal[id].request
    ensures WorkerSays(Next(s, step), id, Failed)
  {
    hide Next; hide Enabled; hide WorkersInv;
    WorkersAdvance(s, step, s.supervisor.journal[id].request.run);
  }

  lemma WorkersAdvance(s: System, step: Step, run: string)
    requires WorkersInv(s) && Enabled(s, step) && run in s.workers
    ensures run in Next(s, step).workers && Advances(s.workers[run], Next(s, step).workers[run])
  {
    hide ValidId; hide StartsOf; hide Reconcile; hide Conclude; hide Intend; hide WorkerInv; hide Admit; hide Finish; hide Recovered;
    hide SupervisorRecovered; hide CommandOf;
    match step
    case Deliver(r, c) => AdmitKeeps(s.workers[r], c);
    case Outsider(r, c) => AdmitKeeps(s.workers[r], c);
    case HandlerEnds(r, ending) => FinishKeeps(s.workers[r], ending);
    case WorkerRestart(r) => RestartKeeps(s.workers[r]);
    case _ =>
  }

  lemma DeadNeverStarted(s: System, id: string)
    requires Inv(s) && id in s.supervisor.journal && Dead(s, id)
    ensures forall run :: run in s.workers ==> StartsOf(s.workers[run].starts, id) == 0
  {}

  lemma {:induction false} DeadStaysDead(states: seq<System>, steps: seq<Step>, i: nat, j: nat, id: string)
    requires IsRun(states, steps) && i <= j < |states| && id in states[i].supervisor.journal
    ensures id in states[j].supervisor.journal && states[j].supervisor.journal[id].request == states[i].supervisor.journal[id].request
    ensures Dead(states[i], id) ==> Dead(states[j], id)
    decreases j
  {
    hide Inv; hide Enabled; hide Next; hide Dead;
    if i < j {
      DeadStaysDead(states, steps, i, j - 1, id);
      RunKeeps(states, steps, j - 1);
      StepIsFinal(states[j - 1], steps[j - 1], id);
    }
  }

  /** Agreement: for every control action, a receipt that says completed is what the worker's journal says, and one that says
      failed means that the handler has not run and never will, at any worker, however long the run goes on. */
  lemma ReceiptsAgree(states: seq<System>, steps: seq<Step>, i: nat, j: nat, id: string)
    requires IsRun(states, steps) && i <= j < |states|
    requires id in states[i].supervisor.journal && IsControl(states[i].supervisor.journal[id].request.action)
    ensures states[i].supervisor.journal[id].receipt == Some(Completed) ==> WorkerSays(states[i], id, Completed)
    ensures states[i].supervisor.journal[id].receipt == Some(Failed) ==>
              forall run :: run in states[j].workers ==> StartsOf(states[j].workers[run].starts, id) == 0
  {
    hide IsRun; hide WorkersInv; hide RowsInv; hide AnswersInv; hide CommandsInv; hide Dead;
    RunKeeps(states, steps, i);
    if states[i].supervisor.journal[id].receipt == Some(Failed) {
      DeadStaysDead(states, steps, i, j, id);
      RunKeeps(states, steps, j);
      DeadNeverStarted(states[j], id);
    }
  }

  // ---- Quiescing a worker -----------------------------------------------------------------------

  /** Every new write is refused, and the last handler has ended. */
  predicate Quiesced(s: System, run: string) { run in s.workers && s.workers[run].closing && s.workers[run].busy.None? }

  lemma ClosingStartsNothing(s: System, step: Step, run: string)
    requires Enabled(s, step) && run in s.workers && s.workers[run].closing && step != WorkerRestart(run)
    ensures var t := Next(s, step);
            && run in t.workers && t.workers[run].closing && t.workers[run].starts == s.workers[run].starts
            && (Quiesced(s, run) ==> Quiesced(t, run) && t.workers[run].journal.Keys >= s.workers[run].journal.Keys
                                     && forall id :: id in s.workers[run].journal ==> t.workers[run].journal[id] == s.workers[run].journal[id])
  {
    hide ValidId; hide Receipt; hide CommandOf; hide Intend; hide Conclude; hide Reconcile; hide SupervisorRecovered; hide StoredReceipt;
  }

  /** From the moment a worker is closing until it restarts, it starts no handler; and once it is quiesced, its rows are final. */
  lemma {:induction false} QuiescedIsFinal(states: seq<System>, steps: seq<Step>, i: nat, j: nat, run: string)
    requires IsRun(states, steps) && i <= j < |states| && run in states[i].workers && states[i].workers[run].closing
    requires forall k :: i <= k < j ==> steps[k] != WorkerRestart(run)
    ensures run in states[j].workers && states[j].workers[run].closing && states[j].workers[run].starts == states[i].workers[run].starts
    ensures Quiesced(states[i], run) ==>
              Quiesced(states[j], run) && forall id :: id in states[i].workers[run].journal ==>
                id in states[j].workers[run].journal && states[j].workers[run].journal[id] == states[i].workers[run].journal[id]
    decreases j
  {
    hide Enabled; hide Next;
    if i < j {
      QuiescedIsFinal(states, steps, i, j - 1, run);
      ClosingStartsNothing(states[j - 1], steps[j - 1], run);
    }
  }

  // ---- A completed receipt may still be overwritten -------------------------------------------

  ghost predicate SaysCompleted(s: System, id: string) {
    id in s.supervisor.journal && IsControl(s.supervisor.journal[id].request.action) && s.supervisor.journal[id].receipt == Some(Completed)
  }

  /** Whatever follows, the supervisor answers completed. */
  ghost predicate StaysCompleted(s: System, id: string) {
    forall states, steps, j :: IsPath(states, steps) && states[0] == s && 0 <= j < |states| ==> SaysCompleted(states[j], id)
  }

  lemma CompletedSurvives(s: System, step: Step, id: string)
    requires Inv(s) && Enabled(s, step) && SaysCompleted(s, id) && !Waits(s, id)
    ensures SaysCompleted(Next(s, step), id) && !Waits(Next(s, step), id)
  {
    hide WorkersInv; hide CommandsInv; hide RowsInv; hide Admit; hide Finish; hide CommandOf; hide ValidId; hide Dead;
    if step.ResolveStored? { StoredIsTruthful(s.workers[s.supervisor.journal[id].request.run].journal, id); }
  }

  lemma {:induction false} CompletedAlong(states: seq<System>, steps: seq<Step>, j: nat, id: string)
    requires IsPath(states, steps) && j < |states| && Inv(states[0]) && SaysCompleted(states[0], id) && !Waits(states[0], id)
    ensures Inv(states[j]) && SaysCompleted(states[j], id) && !Waits(states[j], id)
  {
    hide Inv; hide Enabled; hide Next; hide SaysCompleted; hide Waits;
    if j > 0 {
      CompletedAlong(states, steps, j - 1, id);
      StepKeeps(states[j - 1], steps[j - 1]);
      CompletedSurvives(states[j - 1], steps[j - 1], id);
    }
  }

  /** While the execution waits, its timeout is possible and overwrites what a query recorded. */
  lemma TimeoutLosesCompleted(s: System, id: string)
    requires Inv(s) && SaysCompleted(s, id) && Waits(s, id)
    ensures Enabled(s, End(TimedOut)) && !SaysCompleted(Next(s, End(TimedOut)), id)
  {
    hide WorkersInv; hide CommandsInv; hide RowsInv; hide AnswersInv; hide ReceiptsInv; hide CommandOf;
  }

  /** A receipt query does not take the lock. In every run, a completed receipt of a control action is there for good exactly when
      no execution is waiting for that operation any more. */
  lemma CompletedIsPermanentIff(states: seq<System>, steps: seq<Step>, i: nat, id: string)
    requires IsRun(states, steps) && i < |states| && SaysCompleted(states[i], id)
    ensures StaysCompleted(states[i], id) <==> !Waits(states[i], id)
  {
    hide Inv; hide Enabled; hide Next; hide SaysCompleted; hide Waits;
    RunKeeps(states, steps, i);
    var s := states[i];
    if Waits(s, id) {
      TimeoutLosesCompleted(s, id);
      var path := [s, Next(s, End(TimedOut))];
      assert IsPath(path, [End(TimedOut)]) && path[0] == s && !SaysCompleted(path[1], id);
    } else {
      forall more, moves, j | IsPath(more, moves) && more[0] == s && 0 <= j < |more|
        ensures SaysCompleted(more[j], id)
      {
        CompletedAlong(more, moves, j, id);
      }
    }
  }

  const ID := "operation-1"
  const REQUEST := Request("g", Halt, "r", [], "")
  const SENT := System(map["r" := Worker({Halt}, map[], false, None, true, [])],
                       Supervisor(map[ID := SupervisorRow(REQUEST, None)], Some(Waiting(ID, true)), {}, true),
                       {CommandOf(REQUEST, ID)}, {}, {})
  const DONE := SENT.(workers := map["r" := Worker({Halt}, map[ID := WorkerRow(CommandOf(REQUEST, ID), Completed, Some(true))], false, None,
                                                   true, [ID])],
                      answers := {Answer("r", Reply(Some(ID), Some(Completed), true))})
  const RECORDED := DONE.(supervisor := Supervisor(map[ID := SupervisorRow(REQUEST, Some(Completed))], Some(Waiting(ID, true)), {}, true))

  ghost predicate Leads(s: System, step: Step, t: System) { Enabled(s, step) && Next(s, step) == t }

  lemma CommandIsSent() returns (s1: System, s2: System)
    ensures Leads(NOTHING, NewWorker("r", {Halt}), s1) && Leads(s1, Execute(ID, REQUEST, true), s2) && Leads(s2, Send, SENT)
  {
    s1 := Next(NOTHING, NewWorker("r", {Halt}));
    s2 := Next(s1, Execute(ID, REQUEST, true));
  }

  lemma HandlerCompletes() returns (s4: System)
    ensures Leads(SENT, Deliver("r", CommandOf(REQUEST, ID)), s4) && Leads(s4, HandlerEnds("r", Returned(true)), DONE)
  {
    s4 := Next(SENT, Deliver("r", CommandOf(REQUEST, ID)));
    var row := WorkerRow(CommandOf(REQUEST, ID), Processing, None);
    assert s4.workers["r"] == Worker({Halt}, map[ID := row], false, Some(ID), true, [ID]);
    var s5 := Next(s4, HandlerEnds("r", Returned(true)));
    assert s5.workers["r"].journal == map[ID := row.(status := Completed, result := Some(true))];
    assert s5.workers == DONE.workers;
  }

  lemma ReceiptIsRecorded() returns (s6: System)
    ensures Leads(DONE, Ask(ID), s6) && Leads(s6, Resolve(ID, Reply(Some(ID), Some(Completed), true)), RECORDED)
  {
    hide CommandOf;
    s6 := Next(DONE, Ask(ID));
    assert s6.supervisor == Supervisor(map[ID := SupervisorRow(REQUEST, None)], Some(Waiting(ID, true)), {ID}, true);
    assert map[ID := SupervisorRow(REQUEST, None)][ID := SupervisorRow(REQUEST, Some(Completed))] == map[ID := SupervisorRow(REQUEST, Some(Completed))];
  }

  lemma TimeoutOverwrites() returns (s8: System)
    ensures Leads(RECORDED, End(TimedOut), s8) && ID in s8.supervisor.journal && s8.supervisor.journal[ID].receipt == Some(Unknown)
  {
    s8 := Next(RECORDED, End(TimedOut));
  }

  /** It happens: the handler completes, a receipt query records it, and then the execution times out. */
  lemma CompletedCanBeLost() returns (states: seq<System>, steps: seq<Step>)
    ensures IsRun(states, steps) && |states| == 9
    ensures ID in states[7].supervisor.journal && states[7].supervisor.journal[ID].receipt == Some(Completed)
    ensures ID in states[8].supervisor.journal && states[8].supervisor.journal[ID].receipt == Some(Unknown)
  {
    hide Next; hide Enabled; hide SENT; hide DONE; hide NOTHING; hide REQUEST; hide CommandOf;
    var s1, s2 := CommandIsSent();
    var s4 := HandlerCompletes();
    var s6 := ReceiptIsRecorded();
    var s8 := TimeoutOverwrites();
    steps := [NewWorker("r", {Halt}), Execute(ID, REQUEST, true), Send, Deliver("r", CommandOf(REQUEST, ID)),
              HandlerEnds("r", Returned(true)), Ask(ID), Resolve(ID, Reply(Some(ID), Some(Completed), true)), End(TimedOut)];
    states := [NOTHING, s1, s2, SENT, s4, DONE, s6, RECORDED, s8];
    forall i | 0 <= i < |steps|
      ensures Leads(states[i], steps[i], states[i + 1])
    {}
  }
}
