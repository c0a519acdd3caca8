/** The two journals as objects: the worker's control server, and the supervisor's operations. */
module Operations {
  import opened Common
  import M = OperationsModel
  import opened OperationsProofs

  class ControlServer {
    const handlers: set<M.Action>
    var journal: map<string, M.WorkerRow>
    var closing: bool
    var busy: Option<string>
    ghost var starts: seq<string>

    ghost function View(): M.Worker
      reads this
    {
      M.Worker(handlers, journal, closing, busy, true, starts)
    }

    /** Opening the journal of an earlier process turns what it left unfinished into unknown. */
    constructor (handlers: set<M.Action>, journal: map<string, M.WorkerRow>, ghost starts: seq<string>)
      requires WorkerInv(M.Worker(handlers, journal, false, None, false, starts))
      ensures View() == M.Worker(handlers, M.Recovered(journal), false, None, true, starts) && WorkerInv(View())
      ensures forall id :: id in this.journal ==> !this.journal[id].status.Processing?
    {
      this.handlers, this.journal, this.closing, this.busy, this.starts := handlers, M.Recovered(journal), false, None, starts;
      RestartKeeps(M.Worker(handlers, journal, false, None, false, starts));
    }

    /** A settled status is only ever named from the journal; an operation without a row is unknown, never settled. */
    method Receipt(id: string) returns (reply: M.Reply)
      ensures reply == M.Receipt(journal, id)
      ensures Truthful(journal, reply)
      ensures M.ValidId(id) ==> reply.id == Some(id) && (reply.status == Some(M.Unknown) || (id in journal && reply.status == Some(journal[id].status)))
      ensures id !in journal ==> (reply.status.Some? ==> reply.status.value == M.Unknown)
      ensures M.ValidId(id) && id in journal ==>
                reply.status == Some(journal[id].status) && reply.ok == (journal[id].result.Some? ==> journal[id].result.value)
    {
      if !M.ValidId(id) { return M.ERROR_REPLY; }
      if id !in journal { return M.Reply(Some(id), Some(M.Unknown), true); }
      var row := journal[id];
      return M.Reply(Some(id), Some(row.status), if row.result.Some? then row.result.value else true);
    }

    /** A write command under the lock. The intent is in the journal before its handler starts. */
    method Dispatch(c: M.Command) returns (admission: M.Admission)
      requires WorkerInv(View()) && busy.None?
      modifies `journal, `busy, `starts
      ensures WorkerInv(View()) && (View(), admission) == M.Admit(old(View()), c)
      ensures admission.HandlerStarted? ==> c.id !in old(journal) && journal[c.id].status.Processing? && M.StartsOf(old(starts), c.id) == 0
      ensures admission.HandlerStarted? <==> c.action in handlers && M.ValidId(c.id) && c.id !in old(journal) && !old(closing)
      ensures admission.HandlerStarted? ==> starts == old(starts) + [c.id] && busy == Some(c.id) && journal[c.id].command == c
      ensures admission.Answered? ==> starts == old(starts) && busy.None?
      // an identifier that is known is answered from its row only to the same command, and changes nothing
      ensures c.id in old(journal) ==> journal == old(journal) && admission.Answered?
      ensures c.id in old(journal) && old(journal)[c.id].command != c ==> admission.reply.status.None?
      ensures c.id in old(journal) && old(journal)[c.id].command == c && c.action in handlers && M.ValidId(c.id) ==>
                admission.reply.id == Some(c.id) && admission.reply.status == Some(old(journal)[c.id].status)
      // while closing, a new one is refused for good
      ensures old(closing) && c.id in journal && c.id !in old(journal) ==>
                journal[c.id].status.Failed? && admission.reply.status == Some(M.Failed) && !admission.reply.ok
    {
      hide M.StartsOf; hide M.ValidId;
      AdmitKeeps(View(), c);
      if c.action !in handlers || !M.ValidId(c.id) { return M.Answered(M.ERROR_REPLY); }
      if c.id in journal {
        if journal[c.id].command != c { return M.Answered(M.ERROR_REPLY); }
        var prior := Receipt(c.id);
        return M.Answered(prior);
      }
      if closing {
        journal := journal[c.id := M.WorkerRow(c, M.Failed, Some(false))];
        var refusal := Receipt(c.id);
        return M.Answered(refusal);
      }
      journal := journal[c.id := M.WorkerRow(c, M.Processing, None)];
      busy, starts := Some(c.id), starts + [c.id];
      return M.HandlerStarted;
    }

    /** The handler returned, raised or was cancelled; only a return is a completion. */
    method HandlerEnds(ending: M.Ending) returns (reply: Option<M.Reply>)
      requires WorkerInv(View()) && busy.Some?
      modifies `journal, `busy
      ensures WorkerInv(View()) && (View(), reply) == M.Finish(old(View()), ending)
      ensures busy.None? && journal.Keys == old(journal).Keys
      ensures forall id :: id in journal && id != old(busy).value ==> journal[id] == old(journal)[id]
      ensures var row := journal[old(busy).value];
              && row.command == old(journal)[old(busy).value].command
              && row.status == (if ending.Returned? then M.Completed else M.Unknown)
              && row.result == match ending case Returned(ok) => Some(ok) case Raised => Some(false) case Cancelled => old(journal)[old(busy).value].result
      ensures reply.None? <==> ending.Cancelled?
      ensures reply.Some? && M.ValidId(old(busy).value) ==> reply.value.ok == (ending.Returned? && ending.ok)
    {
      hide M.StartsOf; hide M.ValidId;
      FinishKeeps(View(), ending);
      var id := busy.value;
      reply := None;
      busy := None;
      match ending {
        case Cancelled => journal := journal[id := journal[id].(status := M.Unknown)];
        case Returned(ok) =>
          journal := journal[id := journal[id].(status := M.Completed, result := Some(ok))];
          var stored := Receipt(id);
          reply := Some(stored);
        case Raised =>
          journal := journal[id := journal[id].(status := M.Unknown, result := Some(false))];
          var stored := Receipt(id);
          reply := Some(stored);
      }
    }

    /** From here on every new write is refused. Then the lock is awaited: a handler that is running ends first, in whichever way. */
    method Quiesce(ending: M.Ending)
      requires WorkerInv(View())
      modifies `closing, `journal, `busy
      ensures WorkerInv(View()) && closing && busy.None? && starts == old(starts)
      ensures var w := old(View()).(closing := true);
              View() == if w.busy.Some? then M.Finish(w, ending).0 else w
      ensures forall id :: id in journal ==> !journal[id].status.Processing?
    {
      hide M.StartsOf;
      closing := true;
      if busy.Some? { var _ := HandlerEnds(ending); }
    }
  }

  datatype Begun = Refused | Prior(receipt: M.Status) | Begun

  class GroupSupervisor {
    var journal: map<string, M.SupervisorRow>
    var waiting: Option<M.Waiting>
    var queries: set<string>

    ghost function View(): M.Supervisor
      reads this
    {
      M.Supervisor(journal, waiting, queries, true)
    }

    ghost predicate Valid()
      reads this
    {
      (waiting.Some? ==> waiting.value.id in journal) && forall id :: id in queries ==> id in journal
    }

    constructor (journal: map<string, M.SupervisorRow>)
      ensures Valid() && View() == M.Supervisor(M.SupervisorRecovered(journal), None, {}, true)
      ensures forall id :: id in this.journal ==> this.journal[id].receipt.Some?
    {
      this.journal, this.waiting, this.queries := M.SupervisorRecovered(journal), None, {};
    }

    /** The answer kept for an operation: unknown until it has one. */
    function Kept(id: string): M.Status
      reads this
      requires id in journal
    {
      if journal[id].receipt.Some? then journal[id].receipt.value else M.Unknown
    }

    /** prepared says whether the reviewed request passed every check. */
    method Execute(id: string, request: M.Request, prepared: bool) returns (r: Begun)
      requires Valid() && waiting.None?
      modifies `journal, `waiting
      ensures Valid()
      ensures var intended := M.Intend(old(View()), id, request, prepared);
              if intended.Some? then r == Begun && View() == intended.value else View() == old(View()) && !r.Begun?
      ensures r.Prior? <==> M.ValidId(id) && id in old(journal) && old(journal)[id].request == request
      ensures r.Prior? ==> r.receipt == Kept(id)
      ensures r.Begun? <==> M.ValidId(id) && id !in old(journal) && prepared
      ensures r.Begun? ==> journal == old(journal)[id := M.SupervisorRow(request, None)] && waiting == Some(M.Waiting(id, false))
    {
      if !M.ValidId(id) { return Refused; }
      if id in journal {
        if journal[id].request != request { return Refused; }
        return Prior(Kept(id));
      }
      if !prepared { return Refused; }
      journal := journal[id := M.SupervisorRow(request, None)];
      waiting := Some(M.Waiting(id, false));
      return Begun;
    }

    /** The command for the socket; once it may have left, the outcome can no longer be called a failure. */
    method Send() returns (c: M.Command)
      requires Valid() && waiting.Some?
      modifies `waiting
      ensures Valid() && View() == old(View()).(waiting := Some(old(waiting).value.(sent := true)))
      ensures c == M.CommandOf(journal[waiting.value.id].request, waiting.value.id)
      ensures var request := journal[waiting.value.id].request;
              && c.id == old(waiting).value.id && c.action == request.action && c.run == request.run
              && c.instruments == if request.action == M.Flatten then request.instruments else []
    {
      waiting := Some(waiting.value.(sent := true));
      c := M.CommandOf(journal[waiting.value.id].request, waiting.value.id);
    }

    method End(c: M.Conclusion) returns (receipt: M.Status)
      requires Valid() && waiting.Some?
      modifies `journal, `waiting
      ensures Valid() && View() == M.Conclude(old(View()), c)
      ensures receipt == M.Concluded(old(waiting).value.id, c) == Kept(old(waiting).value.id)
      // completed only by a signal that was given, a launch that went well, or a reply to this very operation that says so
      ensures receipt.Completed? <==> c.Signalled? || (c.Launched? && c.ok)
                                      || (c.Replied? && c.reply.id == Some(old(waiting).value.id) && c.reply.status == Some(M.Completed))
      // failed only when nothing was sent, a launch failed, or such a reply says so
      ensures receipt.Failed? <==> c.NotSendable? || (c.Launched? && !c.ok)
                                   || (c.Replied? && c.reply.id == Some(old(waiting).value.id) && c.reply.status == Some(M.Failed))
    {
      var id := waiting.value.id;
      match c {
        case NotSendable => receipt := M.Failed;
        case Signalled => receipt := M.Completed;
        case Launched(ok) => receipt := if ok then M.Completed else M.Failed;
        case TimedOut => receipt := M.Unknown;
        case Replied(reply) =>
          if reply.id != Some(id) || reply.status.None? {
            receipt := M.Unknown;
          } else {
            receipt := reply.status.value;
          }
      }
      journal, waiting := journal[id := journal[id].(receipt := Some(receipt))], None;
    }

    /** The execution is cancelled; its intent stays unanswered. */
    method Abandon()
      requires Valid() && waiting.Some?
      modifies `waiting
      ensures Valid() && View() == old(View()).(waiting := None)
      ensures old(waiting).value.id in journal && journal == old(journal)
    {
      waiting := None;
    }

    /** A receipt query that has to ask the worker first. */
    method Ask(id: string) returns (asks: bool)
      requires Valid()
      modifies `queries
      ensures Valid() && asks == M.Asks(old(View()), id)
      ensures asks <==> M.ValidId(id) && id in journal && journal[id].receipt != Some(M.Completed) && journal[id].receipt != Some(M.Failed)
                        && journal[id].request.action in {M.Halt, M.Reduce, M.Resume}
      ensures View() == if asks then old(View()).(queries := old(queries) + {id}) else old(View())
    {
      hide M.ValidId;
      if id in journal {
        var kept := Kept(id);
        assert kept.Processing? || kept.Unknown? || kept.Completed? || kept.Failed?;
      }
      asks := M.ValidId(id) && id in journal && Kept(id) in {M.Processing, M.Unknown} && M.IsReconciled(journal[id].request.action);
      if asks { queries := queries + {id}; }
    }

    /** Only a settled receipt of this very operation replaces what is kept. */
    method Resolve(id: string, reply: M.Reply)
      requires Valid() && id in queries
      modifies `queries, `journal
      ensures Valid() && View() == M.Reconcile(old(View()), id, reply)
      ensures journal != old(journal) ==> reply.id == Some(id) && reply.status in {Some(M.Completed), Some(M.Failed)}
      ensures reply.id == Some(id) && reply.status in {Some(M.Completed), Some(M.Failed)} ==>
                id in journal && journal[id].receipt == reply.status && journal[id].request == old(journal)[id].request
    {
      queries := queries - {id};
      if reply.id == Some(id) && reply.status.Some? && reply.status.value in {M.Completed, M.Failed} {
        journal := journal[id := journal[id].(receipt := reply.status)];
      }
    }
  }
}
