/** What the journals say, held against the handlers themselves: how each one ended is read off the steps, not off any journal. */
module OperationsEndings {
  import opened Common
  import opened OperationsModel
  import opened OperationsProofs

  // ---- The record of the steps ----------------------------------------------------------------

  /** At this step a handler of the operation, at the worker of this run, ends in the given way. */
  ghost predicate EndsAt(states: seq<System>, steps: seq<Step>, k: nat, run: string, id: string, ending: Ending)
    requires |states| == |steps| + 1 && k < |steps|
  {
    steps[k] == HandlerEnds(run, ending) && run in states[k].workers && states[k].workers[run].busy == Some(id)
  }

  /** At this step the worker is killed while the operation's handler runs. */
  ghost predicate CutAt(states: seq<System>, steps: seq<Step>, k: nat, run: string, id: string)
    requires |states| == |steps| + 1 && k < |steps|
  {
    steps[k] == WorkerCrash(run) && run in states[k].workers && states[k].workers[run].busy == Some(id)
  }

  ghost predicate HasReturned(states: seq<System>, steps: seq<Step>, i: nat, run: string, id: string)
    requires |states| == |steps| + 1 && i <= |steps|
  {
    exists k, ok :: 0 <= k < i && EndsAt(states, steps, k, run, id, Returned(ok))
  }

  /** The handler raised or was cancelled. */
  ghost predicate HasFailed(states: seq<System>, steps: seq<Step>, i: nat, run: string, id: string)
    requires |states| == |steps| + 1 && i <= |steps|
  {
    exists k, ending :: 0 <= k < i && EndsAt(states, steps, k, run, id, ending) && (ending.Raised? || ending.Cancelled?)
  }

  ghost predicate WasCut(states: seq<System>, steps: seq<Step>, i: nat, run: string, id: string)
    requires |states| == |steps| + 1 && i <= |steps|
  {
    exists k :: 0 <= k < i && CutAt(states, steps, k, run, id)
  }

  // ---- One step -------------------------------------------------------------------------------

  predicate StatusIs(s: System, run: string, id: string, status: Status) {
    run in s.workers && id in s.workers[run].journal && s.workers[run].journal[id].status == status
  }

  predicate Busy(s: System, run: string, id: string) { run in s.workers && s.workers[run].busy == Some(id) }

  /** A row becomes completed by the return of its handler and in no other way, and it stays so. */
  lemma CompletedStepIff(s: System, step: Step, run: string, id: string)
    requires Inv(s) && Enabled(s, step)
    ensures StatusIs(Next(s, step), run, id, Completed)
       <==> StatusIs(s, run, id, Completed) || (step.HandlerEnds? && step.run == run && step.ending.Returned? && Busy(s, run, id))
  {
    hide CommandsInv; hide RowsInv; hide ReceiptsInv; hide AnswersInv; hide StartsOf; hide ValidId; hide CommandOf; hide Receipt;
    hide Intend; hide Conclude; hide Reconcile; hide SupervisorRecovered; hide StoredReceipt;
    if run in s.workers { assert WorkerInv(s.workers[run]); }
  }

  /** A row becomes unknown when its handler raises or is cancelled, or when the journal is opened with it still processing. */
  lemma UnknownStepIff(s: System, step: Step, run: string, id: string)
    requires Inv(s) && Enabled(s, step)
    ensures StatusIs(Next(s, step), run, id, Unknown)
       <==> || StatusIs(s, run, id, Unknown)
            || (step.HandlerEnds? && step.run == run && !step.ending.Returned? && Busy(s, run, id))
            || (step == WorkerRestart(run) && StatusIs(s, run, id, Processing))
  {
    hide CommandsInv; hide RowsInv; hide ReceiptsInv; hide AnswersInv; hide StartsOf; hide ValidId; hide CommandOf; hide Receipt;
    hide Intend; hide Conclude; hide Reconcile; hide SupervisorRecovered; hide StoredReceipt;
    if run in s.workers { assert WorkerInv(s.workers[run]); }
  }

  /** The journal of a worker that is gone answers only with a stored result, under the row's status. */
  lemma StoredMeans(journal: map<string, WorkerRow>, id: string)
    ensures var reply := StoredReceipt(journal, id);
            if id in journal && journal[id].result.Some? then
              reply == Reply(Some(id), Some(journal[id].status), journal[id].result.value)
            else reply.id.None? && reply.status.None?
  {}

  // ---- Whole runs -----------------------------------------------------------------------------

  /** A worker's row is completed exactly when its handler has returned. */
  lemma {:induction false} CompletedIffReturned(states: seq<System>, steps: seq<Step>, i: nat, run: string, id: string)
    requires IsRun(states, steps) && i < |states|
    ensures StatusIs(states[i], run, id, Completed) <==> HasReturned(states, steps, i, run, id)
  {
    hide Inv; hide Enabled; hide Next;
    if i > 0 {
      CompletedIffReturned(states, steps, i - 1, run, id);
      RunKeeps(states, steps, i - 1);
      CompletedStepIff(states[i - 1], steps[i - 1], run, id);
      if steps[i - 1].HandlerEnds? && steps[i - 1].run == run && steps[i - 1].ending.Returned? && Busy(states[i - 1], run, id) {
        assert EndsAt(states, steps, i - 1, run, id, Returned(steps[i - 1].ending.ok));
      }
    }
  }

  /** A handler that raised or was cancelled leaves its row unknown for good. */
  lemma {:induction false} FailedIsUnknown(states: seq<System>, steps: seq<Step>, i: nat, run: string, id: string)
    requires IsRun(states, steps) && i < |states| && HasFailed(states, steps, i, run, id)
    ensures StatusIs(states[i], run, id, Unknown)
  {
    hide Inv; hide Enabled; hide Next;
    RunKeeps(states, steps, i - 1);
    UnknownStepIff(states[i - 1], steps[i - 1], run, id);
    if HasFailed(states, steps, i - 1, run, id) {
      FailedIsUnknown(states, steps, i - 1, run, id);
    }
  }

  /** A handler that was cut off leaves its row processing until the journal is opened again, and unknown for good from then on. */
  lemma {:induction false} CutIsUnknown(states: seq<System>, steps: seq<Step>, k: nat, i: nat, run: string, id: string)
    requires IsRun(states, steps) && k < i < |states| && CutAt(states, steps, k, run, id)
    ensures if exists r :: k < r < i && steps[r] == WorkerRestart(run) then StatusIs(states[i], run, id, Unknown)
            else StatusIs(states[i], run, id, Processing) && !states[i].workers[run].alive
    decreases i
  {
    hide Inv; hide Enabled; hide Next;
    if i == k + 1 {
      RunKeeps(states, steps, k);
      CutLeavesProcessing(states[k], run, id);
    } else {
      CutIsUnknown(states, steps, k, i - 1, run, id);
      RunKeeps(states, steps, i - 1);
      UnknownStepIff(states[i - 1], steps[i - 1], run, id);
      if !exists r :: k < r < i - 1 && steps[r] == WorkerRestart(run) {
        if steps[i - 1] != WorkerRestart(run) {
          DeadWorkerKeepsRow(states[i - 1], steps[i - 1], run, id);
          assert !exists r :: k < r < i && steps[r] == WorkerRestart(run);
        }
      }
    }
  }

  lemma CutLeavesProcessing(s: System, run: string, id: string)
    requires Inv(s) && Enabled(s, WorkerCrash(run)) && Busy(s, run, id)
    ensures var t := Next(s, WorkerCrash(run)); StatusIs(t, run, id, Processing) && !t.workers[run].alive
  {
    hide CommandsInv; hide RowsInv; hide ReceiptsInv; hide AnswersInv; hide StartsOf;
    assert WorkerInv(s.workers[run]);
  }

  lemma DeadWorkerKeepsRow(s: System, step: Step, run: string, id: string)
    requires Inv(s) && Enabled(s, step) && StatusIs(s, run, id, Processing) && !s.workers[run].alive && step != WorkerRestart(run)
    ensures StatusIs(Next(s, step), run, id, Processing) && !Next(s, step).workers[run].alive
  {
    hide CommandsInv; hide RowsInv; hide ReceiptsInv; hide AnswersInv; hide StartsOf; hide ValidId; hide CommandOf; hide Receipt; hide Admit;
    hide Finish; hide Intend; hide Conclude; hide Reconcile; hide SupervisorRecovered; hide StoredReceipt;
  }

  /** Agreement with what happened: in every run, a completed receipt of a control action means that the handler of that operation has
      returned at the worker of its run, and a failed one that no handler of it has ever started or will. */
  lemma CompletedMeansReturned(states: seq<System>, steps: seq<Step>, i: nat, j: nat, id: string)
    requires IsRun(states, steps) && i <= j < |states|
    requires id in states[i].supervisor.journal && IsControl(states[i].supervisor.journal[id].request.action)
    ensures states[i].supervisor.journal[id].receipt == Some(Completed) ==>
              HasReturned(states, steps, i, states[i].supervisor.journal[id].request.run, id)
    ensures states[i].supervisor.journal[id].receipt == Some(Failed) ==>
              forall run :: run in states[j].workers ==> StartsOf(states[j].workers[run].starts, id) == 0
  {
    hide IsRun; hide HasReturned; hide StartsOf; hide IsControl;
    ReceiptsAgree(states, steps, i, j, id);
    assert |states| == |steps| + 1 by { RunLengths(states, steps); }
    CompletedIffReturned(states, steps, i, states[i].supervisor.journal[id].request.run, id);
  }

  lemma RunLengths(states: seq<System>, steps: seq<Step>)
    requires IsRun(states, steps)
    ensures |states| == |steps| + 1
  {}
}
