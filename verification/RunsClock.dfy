/** What a clock set back can do: a run dated before 20 others of its group is overlooked by the next start. */
module RunsClock {
  import opened RunsModel
  import opened RunsProofs
  import opened RunsLosses

  /** The hidden process, once recorded, is in the way of no later start of a group that is not live. */
  lemma HiddenIsQuiet(s: System, id: string, late: System)
    requires Inv(s) && Enabled(s, Insert(id)) && Hides(s, Insert(id)) && !s.registry.groups[s.starting.value.group].kind.Live?
    requires late.registry == s.registry && late.live == s.live + {id} && late.spawning.None?
    requires late.rows == s.rows[id := Row(s.starting.value.group, Starting, s.now, true, s.registry.groups[s.starting.value.group].modelRun)]
    requires forall x :: x in late.rows ==> late.now - late.rows[x].created >= SPAWN_SECONDS
    ensures Quiet(late, s.starting.value.group)
  {
    hide Inv; hide StillSpawning; hide Active;
    var group := s.starting.value.group;
    assert Later(late.rows, group, s.now) == Later(s.rows, group, s.now);
    forall x | x in late.rows && Rival(late, group, x) && IsRecent(late.rows, x)
      ensures !Owned(late, x)
    {
      if x in s.live { ClearedIsAlone(s, x); }
    }
  }

  /** A second start of the group puts another process beside a hidden one. The account check would have found a live group's. */
  lemma HiddenGetsCompany(s: System, step: Step, unused: string) returns (t: System)
    requires Inv(s) && Enabled(s, step) && Hides(s, step) && unused !in s.rows && unused !in s.live && unused != step.id
    requires var spec := s.registry.groups[s.starting.value.group]; !spec.kind.Live? && !spec.modelRun
    ensures Reaches(Next(s, step), t) && step.id in t.live && unused in t.live
            && step.id in t.rows && unused in t.rows && t.rows[step.id].group == t.rows[unused].group
  {
    hide Reaches; hide SameAccount; hide Quiet; hide Room; hide Inv; hide Cleared; hide StillSpawning;
    var group, s0 := s.starting.value.group, Next(s, step);
    assert group in s.registry.groups by { ClearedIsKnown(s); }
    ReachesItself(s0);
    ReachesNext(s0, s0, Born);
    var born := Next(s0, Born);
    ReachesNext(s0, born, Recorded);
    var recorded := Next(born, Recorded);
    var seconds := LongEnough(recorded.rows, recorded.rows.Keys, recorded.now);
    ReachesNext(s0, recorded, Tick(seconds));
    var late := Next(recorded, Tick(seconds));
    HiddenIsQuiet(s, step.id, late);
    ReachesNext(s0, late, Begin(group));
    var begun := Next(late, Begin(group));
    BeginStaysQuiet(late, group);
    var cleared := StartIsCleared(s0, begun, group);
    QuietIsLater(begun, cleared, group);
    t := SecondProcess(s0, cleared, unused);
  }

  lemma ClearedIsKnown(s: System)
    requires s.starting.Some? && Cleared(s, s.starting.value)
    ensures s.starting.value.group in s.registry.groups
  {}

  /** An idle sandbox: no process, and no start of the last half a minute. */
  ghost predicate Deserted(s: System, rows: nat) {
    && Quiet(s, "g") && s.registry == SANDBOX && s.live == {} && s.starting.None? && s.spawning.None?
    && |s.rows| == rows && s.now > 0 && forall id :: id in s.rows ==> s.rows[id].group == "g" && s.rows[id].created > 0
  }

  /** A start that fails to create its process. */
  lemma OneFails(s0: System, s: System, rows: nat, name: string) returns (t: System)
    requires Reaches(s0, s) && Deserted(s, rows) && name !in s.rows
    ensures Reaches(s0, t) && Deserted(t, rows + 1)
  {
    hide Reaches; hide SameAccount; hide Room; hide Cleared; hide IsRecent; hide Quiet; hide Loses;
    var cleared := FreshStart(s0, s);
    QuietIsLater(s, cleared, "g");
    StartFails(cleared, name);
    ReachesNext(s0, cleared, Insert(name));
    var inserted := Next(cleared, Insert(name));
    ReachesNext(s0, inserted, SpawnFails);
    var failed := Next(inserted, SpawnFails);
    ReachesNext(s0, failed, Tick(SPAWN_SECONDS));
    t := Next(failed, Tick(SPAWN_SECONDS));
    FailedIsQuiet(s, t, name);
  }

  /** None of the three steps loses anything. */
  lemma StartFails(s: System, name: string)
    requires s.starting.Some? && Cleared(s, s.starting.value) && s.live == {} && s.spawning.None? && name !in s.rows
    requires Later(s.rows, s.starting.value.group, s.now) == {} && forall id :: id in s.rows ==> s.rows[id].created < s.now
    ensures Enabled(s, Insert(name)) && !Loses(s, Insert(name))
    ensures var inserted := Next(s, Insert(name));
            && Enabled(inserted, SpawnFails) && !Loses(inserted, SpawnFails)
            && var failed := Next(inserted, SpawnFails);
               Enabled(failed, Tick(SPAWN_SECONDS)) && !Loses(failed, Tick(SPAWN_SECONDS))
  {
    hide Cleared;
  }

  lemma FailedIsQuiet(s: System, t: System, name: string)
    requires Quiet(s, "g") && t.registry == s.registry && t.live == {} && t.spawning.None? && t.now == s.now + SPAWN_SECONDS
    requires t.rows.Keys == s.rows.Keys + {name} && t.rows[name].created == s.now
    requires forall id :: id in s.rows && id != name ==> t.rows[id].created == s.rows[id].created
    ensures Quiet(t, "g")
  {
    hide SameAccount; hide IsRecent;
  }

  /** Any number of starts that fail to create a process. */
  lemma {:induction false} ManyStarts(n: nat) returns (t: System)
    ensures Reaches(Initial(SANDBOX), t) && Deserted(t, n)
  {
    hide Reaches;
    var s0 := Initial(SANDBOX);
    if n == 0 {
      ReachesItself(s0);
      ReachesNext(s0, s0, Tick(1));
      t := Next(s0, Tick(1));
    } else {
      var s := ManyStarts(n - 1);
      var name := UnusedName(s.rows.Keys);
      t := OneFails(s0, s, n - 1, name);
    }
  }

  lemma FreshStart(s0: System, s: System) returns (t: System)
    requires Reaches(s0, s) && Quiet(s, "g") && s.registry == SANDBOX && s.starting.None?
    ensures Reaches(s0, t) && Alike(s, t) && t.starting.Some? && t.starting.value.group == "g" && Cleared(t, t.starting.value)
    ensures Later(t.rows, "g", t.now) == {}
  {
    hide Reaches; hide SameAccount; hide Room; hide Cleared; hide IsRecent;
    ReachesNext(s0, s, Begin("g"));
    var begun := Next(s, Begin("g"));
    BeginStaysQuiet(s, "g");
    t := StartIsCleared(s0, begun, "g");
    QuietIsLater(begun, t, "g");
  }

  /** From the empty table: after twenty failed starts the clock goes back to zero during the next one, and two processes of the group
      live side by side. */
  lemma TwoProcessesAfterClock() returns (s: System, step: Step, t: System)
    ensures Reaches(Initial(SANDBOX), s) && Enabled(s, step) && Hides(s, step) && Reaches(Next(s, step), t)
    ensures exists a, b :: a in t.live && b in t.live && a != b && a in t.rows && b in t.rows && t.rows[a].group == t.rows[b].group
  {
    hide Reaches; hide SameAccount; hide Room; hide Inv; hide IsRecent; hide Quiet;
    var s0 := Initial(SANDBOX);
    var earlier := ManyStarts(20);
    var cleared := FreshStart(s0, earlier);
    ReachesNext(s0, cleared, Tick(-cleared.now));
    s := Next(cleared, Tick(-cleared.now));
    var a := UnusedName(s.rows.Keys);
    var b := UnusedName(s.rows.Keys + {a});
    step := Insert(a);
    assert Later(s.rows, "g", 0) == s.rows.Keys;
    EmptyHolds(SANDBOX);
    ReachableIsSafe(s0, s);
    t := HiddenGetsCompany(s, step, b);
  }
}
