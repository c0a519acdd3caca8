/** What a status check leaves, which runs hold a model slot, and when a start may go on, said of rows, processes and the clock. */
module RunsMeaning {
  import opened Common
  import opened RunsModel

  ghost predicate HasProcess(s: System, id: string) { id in s.rows && s.rows[id].hasPid && id in s.live }

  /** Its row was written less than half a minute ago, and its process is not yet recorded. */
  ghost predicate IsSpawning(s: System, id: string) {
    id in s.rows && s.rows[id].state == Starting && !s.rows[id].hasPid && s.now < s.rows[id].created + 30
  }

  ghost predicate IsOver(state: State) { state in {Interrupted, Failed, Stopped, Completed} }

  /** A run that is over stays so; one with neither process nor spawn is interrupted; one with a process is what its engine reports,
      unless it is stopping. */
  lemma StatusMeans(s: System, id: string, observed: State)
    requires id in s.rows
    ensures var was, state := s.rows[id].state, StatusOf(s, id, observed);
            && (IsOver(was) ==> state == was)
            && (!IsOver(was) && !HasProcess(s, id) && !IsSpawning(s, id) ==> state == Interrupted)
            && (!IsOver(was) && HasProcess(s, id) && was != Stopping ==> state == observed)
            && (!IsOver(was) && ((HasProcess(s, id) && was == Stopping) || (!HasProcess(s, id) && IsSpawning(s, id))) ==> state == was)
  {
    StatesAre(s.rows[id].state);
  }

  lemma StatesAre(state: State)
    ensures Active(state) <==> !IsOver(state)
  {
    assert state.Starting? || state.Running? || state.Halted? || state.Reducing? || state.Stopping? || state.Unresponsive? || state.Error?
        || state.Recovering? || state.EngineStopped? || state.Interrupted? || state.Failed? || state.Stopped? || state.Completed?;
  }

  /** A model slot is held by every run with a model that is not over and has a process or is spawning, and a start has room while fewer
      of them are held than there are. */
  lemma SlotsMean(s: System, id: string)
    ensures id in Used(s) <==> id in s.rows && s.rows[id].modelHash && !IsOver(s.rows[id].state) && (HasProcess(s, id) || IsSpawning(s, id))
    ensures Room(s) <==> match s.registry.limit case None => true case Some(limit) => |Used(s)| < limit
  {
    if id in s.rows { StatesAre(s.rows[id].state); }
  }

  /** Fewer than 20 rows of the group were created later. */
  ghost predicate AmongRecent(s: System, id: string) {
    id in s.rows && |set other | other in s.rows && s.rows[other].group == s.rows[id].group && s.rows[other].created > s.rows[id].created| < 20
  }

  /** Live groups of one account profile. */
  ghost predicate OneAccount(s: System, a: string, b: string) {
    a in s.registry.groups && b in s.registry.groups && s.registry.groups[a].kind == Live && s.registry.groups[b].kind == Live
    && s.registry.groups[a].profile == s.registry.groups[b].profile
  }

  /** A start may write its row exactly when its group is known, every recent run of the group and of its account has been found over, the
      account was searched if the group is live, and a slot was found if it needs one. */
  lemma ClearedMeans(s: System, start: Start)
    ensures Cleared(s, start) <==>
              && start.group in s.registry.groups
              && (forall id :: AmongRecent(s, id) && (s.rows[id].group == start.group || OneAccount(s, start.group, s.rows[id].group)) ==>
                    id in start.checked)
              && (s.registry.groups[start.group].kind == Live ==> start.swept) && (s.registry.groups[start.group].modelRun ==> start.roomy)
  {
    forall id | id in s.rows
      ensures AmongRecent(s, id) <==> IsRecent(s.rows, id)
    {
      assert (set other | other in s.rows && s.rows[other].group == s.rows[id].group && s.rows[other].created > s.rows[id].created)
          == Later(s.rows, s.rows[id].group, s.rows[id].created);
    }
    hide IsRecent; hide AmongRecent;
    assert forall id :: id in s.rows && AmongRecent(s, id) && OneAccount(s, start.group, s.rows[id].group) ==> IsRecent(s.rows, id);
    assert forall id :: AmongRecent(s, id) ==> id in s.rows by { RecentIsRow(s); }
  }

  lemma RecentIsRow(s: System)
    ensures forall id :: AmongRecent(s, id) ==> id in s.rows
  {}
}
