/** What a forgotten process costs: from every reachable state a loss can be followed to two processes of one group. */
module RunsLosses {
  import opened Common
  import opened RunsModel
  import opened RunsProofs

  // ---- Continuations --------------------------------------------------------------------------

  ghost predicate Links(states: seq<System>, steps: seq<Step>, s: System, t: System) {
    IsPath(states, steps) && NothingLost(states, steps) && states[0] == s && states[|states| - 1] == t
  }

  /** Some continuation without a further loss. */
  ghost predicate Reaches(s: System, t: System) { exists states, steps :: Links(states, steps, s, t) }

  lemma ReachesItself(s: System)
    ensures Reaches(s, s)
  {
    assert Links([s], [], s, s);
  }

  lemma ReachesNext(s: System, t: System, step: Step)
    requires Reaches(s, t) && Enabled(t, step) && !Loses(t, step)
    ensures Reaches(s, Next(t, step))
  {
    hide Enabled; hide Next; hide Loses;
    var states, steps :| Links(states, steps, s, t);
    var longer, more := states + [Next(t, step)], steps + [step];
    forall i | 0 <= i < |more|
      ensures Enabled(longer[i], more[i]) && longer[i + 1] == Next(longer[i], more[i]) && !Loses(longer[i], more[i])
    {
      if i < |steps| { assert longer[i] == states[i] && longer[i + 1] == states[i + 1] && more[i] == steps[i]; }
    }
    assert Links(longer, more, s, Next(t, step));
  }

  lemma ReachableIsSafe(s: System, t: System)
    requires Inv(s) && Reaches(s, t)
    ensures Inv(t)
  {
    hide Inv;
    var states, steps :| Links(states, steps, s, t);
    PathKeeps(states, steps, |states| - 1);
  }

  // ---- A start that overlooks the forgotten process -------------------------------------------

  predicate Rival(s: System, group: string, id: string)
    requires id in s.rows
  {
    s.rows[id].group == group || SameAccount(s.registry, group, s.rows[id].group)
  }

  function Rivals(s: System, group: string): set<string> { set id | id in s.rows && Rival(s, group, id) && IsRecent(s.rows, id) }

  /** No check of the group's start can see a process or a spawn: every row is old, and no process of a recent rival, or of any of the
      same account, is recorded. */
  ghost predicate Quiet(s: System, group: string) {
    && s.spawning.None? && group in s.registry.groups
    && (forall id :: id in s.rows ==> s.now - s.rows[id].created >= SPAWN_SECONDS)
    && (forall id :: id in s.rows && Rival(s, group, id) && (IsRecent(s.rows, id) || SameAccount(s.registry, group, s.rows[id].group)) ==>
          !Owned(s, id))
  }

  /** Only the states of rows differ, and the start that is in progress. */
  ghost predicate Alike(s: System, t: System) {
    && t.registry == s.registry && t.live == s.live && t.now == s.now && t.spawning == s.spawning && t.rows.Keys == s.rows.Keys
    && forall id :: id in s.rows ==> t.rows[id] == s.rows[id].(state := t.rows[id].state)
  }

  lemma AlikeStaysQuiet(s: System, t: System, group: string)
    requires Quiet(s, group) && Alike(s, t)
    ensures Quiet(t, group) && Rivals(t, group) == Rivals(s, group)
  {
    hide SameAccount; hide IsRecent;
    SameTimes(s.rows, t.rows);
  }

  lemma AlikeJoins(s: System, t: System, u: System)
    requires Alike(s, t) && Alike(t, u)
    ensures Alike(s, u)
  {}

  /** A rival's row is found inactive and put down as checked. */
  lemma CheckOne(s: System, group: string, id: string)
    requires Quiet(s, group) && s.starting.Some? && s.starting.value.group == group && id in Rivals(s, group)
    ensures Enabled(s, CheckRow(id, Running)) && !Loses(s, CheckRow(id, Running))
    ensures var t := Next(s, CheckRow(id, Running));
            Alike(s, t) && t.starting == Some(s.starting.value.(checked := s.starting.value.checked + {id}))
  {
    hide SameAccount;
  }

  lemma {:induction false} CheckAll(s0: System, s: System, group: string, todo: set<string>) returns (t: System)
    requires Reaches(s0, s) && Quiet(s, group) && s.starting.Some? && s.starting.value.group == group && todo <= Rivals(s, group)
    ensures Reaches(s0, t) && Alike(s, t)
    ensures t.starting == Some(s.starting.value.(checked := s.starting.value.checked + todo))
    decreases |todo|
  {
    hide Reaches; hide Alike; hide Quiet; hide Next; hide Enabled; hide Loses; hide Rivals;
    if todo == {} {
      t := s;
      NothingDiffers(s);
      assert s.starting.value.checked + todo == s.starting.value.checked;
    } else {
      var id :| id in todo;
      CheckOne(s, group, id);
      var next := Next(s, CheckRow(id, Running));
      ReachesNext(s0, s, CheckRow(id, Running));
      AlikeStaysQuiet(s, next, group);
      t := CheckAll(s0, next, group, todo - {id});
      AlikeJoins(s, next, t);
      assert s.starting.value.checked + {id} + (todo - {id}) == s.starting.value.checked + todo;
    }
  }

  lemma NothingDiffers(s: System)
    ensures Alike(s, s)
  {}

  /** The last check against the account finds nothing. */
  lemma SweepPasses(s0: System, s: System, group: string) returns (t: System)
    requires Reaches(s0, s) && Quiet(s, group) && s.starting.Some? && s.starting.value.group == group
    ensures Reaches(s0, t) && Alike(s, t) && t.starting == Some(s.starting.value.(swept := true))
  {
    hide Reaches; hide SameAccount;
    t := Next(s, Sweep);
    ReachesNext(s0, s, Sweep);
  }

  lemma RoomPasses(s0: System, s: System) returns (t: System)
    requires Reaches(s0, s) && s.starting.Some? && Room(s)
    ensures Reaches(s0, t) && Alike(s, t) && t.starting == Some(s.starting.value.(roomy := true))
  {
    hide Reaches; hide Room;
    t := Next(s, CheckRoom);
    ReachesNext(s0, s, CheckRoom);
  }

  /** There is a free slot, whatever the states of the rows. */
  ghost predicate RoomStays(s: System) { Room(s) && forall t :: Alike(s, t) ==> Room(t) }

  /** Every check of the group is passed; model slots are asked about only when the group needs one. */
  lemma StartIsCleared(s0: System, s: System, group: string) returns (t: System)
    requires Reaches(s0, s) && Quiet(s, group) && s.starting == Some(Start(group, {}, false, false))
    requires s.registry.groups[group].modelRun ==> RoomStays(s)
    ensures Reaches(s0, t) && Alike(s, t) && t.starting.Some? && t.starting.value.group == group && Cleared(t, t.starting.value)
  {
    hide Reaches; hide SameAccount; hide Room; hide IsRecent;
    var checked := CheckAll(s0, s, group, Rivals(s, group));
    AlikeStaysQuiet(s, checked, group);
    var swept := SweepPasses(s0, checked, group);
    AlikeJoins(s, checked, swept);
    if s.registry.groups[group].modelRun {
      t := RoomPasses(s0, swept);
      AlikeJoins(s, swept, t);
    } else {
      t := swept;
    }
    AlikeStaysQuiet(s, t, group);
    AllRivalsChecked(t, group);
  }

  lemma AllRivalsChecked(t: System, group: string)
    requires Quiet(t, group) && t.starting.Some? && t.starting.value.group == group && t.starting.value.swept
    requires Rivals(t, group) <= t.starting.value.checked && (t.registry.groups[group].modelRun ==> t.starting.value.roomy)
    ensures Cleared(t, t.starting.value)
  {
    hide SameAccount; hide IsRecent;
    forall id | id in t.rows && Rival(t, group, id) && IsRecent(t.rows, id)
      ensures id in t.starting.value.checked
    {
      assert id in Rivals(t, group);
    }
  }

  // ---- After a loss ---------------------------------------------------------------------------

  /** A time by which every row is half a minute old. */
  lemma {:induction false} LongEnough(rows: map<string, Row>, ids: set<string>, now: int) returns (seconds: int)
    requires ids <= rows.Keys
    ensures forall id :: id in ids ==> now + seconds - rows[id].created >= SPAWN_SECONDS
  {
    if ids == {} {
      seconds := 0;
    } else {
      var id :| id in ids;
      seconds := LongEnough(rows, ids - {id}, now);
      if now + seconds - rows[id].created < SPAWN_SECONDS { seconds := rows[id].created + SPAWN_SECONDS - now; }
      assert forall other :: other in ids ==> other == id || other in ids - {id};
    }
  }

  ghost predicate LateEnough(s: System, seconds: int) {
    forall id :: id in s.rows ==> s.now + seconds - s.rows[id].created >= SPAWN_SECONDS
  }

  /** After a loss, and late enough, nothing recorded competes with another start of the group. */
  lemma LossGoesQuiet(s: System, step: Step, lost: string, seconds: int)
    requires Inv(s) && Enabled(s, step) && Forgets(s, step) && s.spawning == Some(lost) && LateEnough(s, seconds)
    ensures var t := Next(s, step);
            && lost in s.rows && s.rows[lost].group in s.registry.groups && t.starting.None? && t.spawning.None? && lost in t.live
            && Enabled(t, Tick(seconds)) && !Loses(t, Tick(seconds))
            && Quiet(Next(t, Tick(seconds)), s.rows[lost].group)
  {
    hide SlotInv; hide SameAccount; hide Active; hide IsRecent;
    assert Present(s, lost) && Visible(s, lost);
    var u := Next(Next(s, step), Tick(seconds));
    forall id | id in u.rows && Rival(u, s.rows[lost].group, id)
      ensures !Owned(u, id)
    {
      if id == lost {
        SpawningHasNoPid(s);
      } else {
        RivalIsAbsent(s, lost, id);
      }
    }
  }

  lemma SpawningHasNoPid(s: System)
    requires SpawnInv(s) && s.spawning.Some?
    ensures s.spawning.value in s.rows && !s.rows[s.spawning.value].hasPid
  {}

  lemma RivalIsAbsent(s: System, present: string, id: string)
    requires Inv(s) && Present(s, present) && present in s.rows && id in s.rows && id != present && Rival(s, s.rows[present].group, id)
    ensures id !in s.live
  {
    hide SlotInv; hide SameAccount; hide Active; hide IsRecent; hide SpawnInv; hide StartInv;
  }

  /** The forgotten process no longer holds its slot. */
  lemma LossFreesSlot(s: System, step: Step, lost: string, seconds: int, t: System)
    requires Inv(s) && Enabled(s, step) && Forgets(s, step) && s.spawning == Some(lost) && LateEnough(s, seconds) && lost in s.rows && s.rows[lost].modelHash
    requires Alike(Next(Next(s, step), Tick(seconds)), t)
    ensures Room(t)
  {
    hide ApartInv; hide Active; hide IsRecent; hide StartInv;
    SpawningHasNoPid(s);
    forall id | id in Used(t)
      ensures id in Occupied(s) - {lost}
    {
      assert id in s.rows;
    }
    assert lost in Occupied(s);
    SubsetIsSmaller(Used(t), Occupied(s) - {lost});
  }

  /** From every state of a run in which a process is forgotten, and for every unused identifier, a continuation without any further
      loss puts a second process of the same group beside it. */
  lemma LossBreaksExclusivity(s: System, step: Step, unused: string) returns (t: System, lost: string)
    requires Inv(s) && Enabled(s, step) && Forgets(s, step) && unused !in s.rows && unused !in s.live
    ensures Reaches(Next(s, step), t)
    ensures s.spawning == Some(lost) && lost in t.live && unused in t.live && lost != unused
            && lost in t.rows && unused in t.rows && t.rows[lost].group == t.rows[unused].group
  {
    hide Reaches; hide SameAccount; hide Quiet; hide Room; hide Inv; hide Cleared;
    lost := s.spawning.value;
    var seconds := LongEnough(s.rows, s.rows.Keys, s.now);
    LossGoesQuiet(s, step, lost, seconds);
    var group := s.rows[lost].group;
    var s0 := Next(s, step);
    ReachesItself(s0);
    ReachesNext(s0, s0, Tick(seconds));
    var late := Next(s0, Tick(seconds));
    ReachesNext(s0, late, Begin(group));
    var begun := Next(late, Begin(group));
    assert Quiet(begun, group) by { BeginStaysQuiet(late, group); }
    if s.registry.groups[group].modelRun { SlotIsFree(s, step, lost, seconds, begun); }
    var cleared := StartIsCleared(s0, begun, group);
    assert unused !in cleared.rows && unused !in cleared.live;
    assert forall id :: id in cleared.rows ==> cleared.rows[id].created < cleared.now by { QuietIsLater(begun, cleared, group); }
    t := SecondProcess(s0, cleared, unused);
  }

  lemma BeginStaysQuiet(late: System, group: string)
    requires Quiet(late, group) && late.starting.None?
    ensures Quiet(Next(late, Begin(group)), group)
  {
    hide SameAccount;
  }

  lemma SlotIsFree(s: System, step: Step, lost: string, seconds: int, begun: System)
    requires Inv(s) && Enabled(s, step) && Forgets(s, step) && s.spawning == Some(lost) && LateEnough(s, seconds) && lost in s.rows
    requires s.rows[lost].group in s.registry.groups && s.registry.groups[s.rows[lost].group].modelRun
    requires begun == Next(Next(s, step), Tick(seconds)).(starting := begun.starting)
    ensures RoomStays(begun)
  {
    hide ApartInv; hide Active; hide IsRecent; hide StartInv; hide Room; hide SlotInv;
    assert Present(s, lost) && Visible(s, lost);
    var late := Next(Next(s, step), Tick(seconds));
    forall t | Alike(begun, t)
      ensures Room(t)
    {
      LossFreesSlot(s, step, lost, seconds, t);
    }
    NothingDiffers(begun);
  }

  lemma QuietIsLater(s: System, t: System, group: string)
    requires Quiet(s, group) && Alike(s, t)
    ensures forall id :: id in t.rows ==> t.rows[id].created < t.now
  {}

  lemma SecondProcess(s0: System, s: System, unused: string) returns (t: System)
    requires Reaches(s0, s) && s.starting.Some? && Cleared(s, s.starting.value) && s.spawning.None?
    requires unused !in s.rows && unused !in s.live && forall id :: id in s.rows ==> s.rows[id].created < s.now
    ensures Reaches(s0, t) && t.live == s.live + {unused} && unused in t.rows && t.rows[unused].group == s.starting.value.group
    ensures forall id :: id in s.rows ==> id in t.rows && t.rows[id] == s.rows[id]
  {
    hide Reaches; hide Cleared;
    assert Later(s.rows, s.starting.value.group, s.now) == {};
    ReachesNext(s0, s, Insert(unused));
    var inserted := Next(s, Insert(unused));
    ReachesNext(s0, inserted, Born);
    t := Next(inserted, Born);
  }

  // ---- The exact condition --------------------------------------------------------------------

  lemma {:induction false} UnusedName(names: set<string>) returns (unused: string)
    ensures unused !in names && forall name :: name in names ==> |name| < |unused|
  {
    if names == {} {
      unused := "x";
    } else {
      var name :| name in names;
      unused := UnusedName(names - {name});
      if |name| >= |unused| { unused := name + "x"; }
      assert forall other :: other in names ==> other == name || other in names - {name};
    }
  }

  /** A start dated before 20 others of its group gives a process that no later start looks at. */
  lemma HiddenBreaksExclusivity(s: System, step: Step) returns (t: System)
    requires Enabled(s, step) && Hides(s, step)
    ensures Reaches(Next(s, step), t) && step.id in t.live && step.id in t.rows && !IsRecent(t.rows, step.id)
  {
    hide Reaches; hide Cleared;
    var inserted := Next(s, step);
    ReachesItself(inserted);
    ReachesNext(inserted, inserted, Born);
    t := Next(inserted, Born);
    var group := s.starting.value.group;
    assert Later(t.rows, group, s.now) == Later(s.rows, group, s.now);
  }

  /** Exclusivity survives a step for good exactly when the step neither forgets a process nor hides a run. */
  lemma StepIsSafeIff(s: System, step: Step)
    requires Inv(s) && Enabled(s, step)
    ensures (forall t :: Reaches(Next(s, step), t) ==> Exclusive(t)) <==> !Loses(s, step)
  {
    hide Inv; hide Reaches; hide Enabled; hide Next; hide Forgets; hide Hides; hide IsRecent;
    if Hides(s, step) {
      var t := HiddenBreaksExclusivity(s, step);
    } else if Forgets(s, step) {
      var unused := UnusedName(s.rows.Keys + s.live);
      var t, lost := LossBreaksExclusivity(s, step, unused);
    } else {
      StepKeeps(s, step);
      forall t | Reaches(Next(s, step), t)
        ensures Exclusive(t)
      {
        ReachableIsSafe(Next(s, step), t);
        InvariantMeansExclusive(t);
      }
    }
  }

  const SANDBOX := Registry(map["g" := Spec(Sandbox, "", false)], None)
  const BORN := System(SANDBOX, map["a" := Row("g", Starting, 0, false, false)], {"a"}, 0, None, Some("a"))

  lemma BornIsReached()
    ensures Inv(Initial(SANDBOX)) && Reaches(Initial(SANDBOX), BORN)
  {
    hide Reaches; hide Inv;
    var s0 := Initial(SANDBOX);
    EmptyHolds(SANDBOX);
    ReachesItself(s0);
    ReachesNext(s0, s0, Begin("g"));
    var s1 := Next(s0, Begin("g"));
    ReachesNext(s0, s1, Insert("a"));
    var s2 := Next(s1, Insert("a"));
    ReachesNext(s0, s2, Born);
    assert {} + {"a"} == {"a"};
  }

  /** From the empty table: one start, a crash right after its process is born, and a second process of the group beside it. */
  lemma TwoProcessesAfterLoss() returns (s: System, t: System)
    ensures Reaches(Initial(SANDBOX), s) && Enabled(s, Crash) && Forgets(s, Crash) && Reaches(Next(s, Crash), t)
    ensures "a" in t.live && "b" in t.live && "a" in t.rows && "b" in t.rows && t.rows["a"].group == t.rows["b"].group
  {
    hide Reaches; hide Inv; hide Next;
    BornIsReached();
    ReachableIsSafe(Initial(SANDBOX), BORN);
    s := BORN;
    var lost;
    t, lost := LossBreaksExclusivity(BORN, Crash, "b");
  }
}
