/** Run exclusivity: one process per group, one live process per account, and never more model runs than slots. */
module RunsProofs {
  import opened Common
  import opened RunsModel

  /** The run has a process, or is about to get one. */
  predicate Present(s: System, id: string) { id in s.live || s.spawning == Some(id) }

  /** A present run is among the recent rows of its group and active, so that no check can overlook it. */
  ghost predicate Visible(s: System, id: string) {
    && id in s.rows && Active(s.rows[id].state) && IsRecent(s.rows, id) && (s.rows[id].hasPid || s.spawning == Some(id))
    && s.rows[id].group in s.registry.groups && s.rows[id].modelHash == s.registry.groups[s.rows[id].group].modelRun
  }

  ghost predicate PresentInv(s: System) { forall id :: Present(s, id) ==> Visible(s, id) }

  ghost predicate SpawnInv(s: System) {
    s.spawning.Some? ==> (s.spawning.value in s.rows && StillSpawning(s, s.spawning.value))
  }

  /** No two present runs are of one group or one account. */
  ghost predicate ApartInv(s: System) {
    forall a, b :: Present(s, a) && Present(s, b) && a != b && a in s.rows && b in s.rows ==>
      s.rows[a].group != s.rows[b].group && !SameAccount(s.registry, s.rows[a].group, s.rows[b].group)
  }

  ghost predicate StartInv(s: System) {
    s.starting.Some? ==>
      s.spawning.None? && forall id :: id in s.starting.value.checked ==> id in s.rows && !Active(s.rows[id].state)
  }

  function Occupied(s: System): set<string> {
    set id | id in s.rows && s.rows[id].modelHash && Present(s, id)
  }

  ghost predicate SlotInv(s: System) {
    s.registry.limit.Some? ==>
      (|Occupied(s)| <= s.registry.limit.value
       && (s.starting.Some? && s.starting.value.roomy ==> |Occupied(s)| < s.registry.limit.value))
  }

  ghost predicate Inv(s: System) {
    PresentInv(s) && SpawnInv(s) && ApartInv(s) && StartInv(s) && SlotInv(s)
  }

  // ---- Steps that only change states of rows --------------------------------------------------

  /** What a step that neither creates nor ends a row or a process leaves alone. */
  ghost predicate Settles(s: System, t: System, id: string) {
    && id in s.rows && id in t.rows && t.registry == s.registry && t.live == s.live && t.now == s.now && t.spawning == s.spawning
    && t.rows == s.rows[id := s.rows[id].(state := t.rows[id].state)]
  }

  lemma SettlingKeeps(s: System, t: System, id: string)
    requires Inv(s) && Settles(s, t, id) && (t.starting == s.starting || t.starting.None?)
    requires (Active(s.rows[id].state) || !Active(t.rows[id].state))
    requires Present(s, id) ==> Active(t.rows[id].state) && (s.spawning == Some(id) ==> t.rows[id].state == Starting)
    ensures Inv(t)
  {
    hide SameAccount; hide Active; hide IsRecent;
    SameTimes(s.rows, t.rows);
    forall other | Present(t, other)
      ensures Visible(t, other)
    {
      assert Present(s, other) && Visible(s, other);
    }
    assert Occupied(t) == Occupied(s);
  }

  /** Which rows are recent depends on groups and creation times only. */
  lemma SameTimes(rows: map<string, Row>, others: map<string, Row>)
    requires rows.Keys == others.Keys
    requires forall id :: id in rows ==> others[id].group == rows[id].group && others[id].created == rows[id].created
    ensures forall id :: id in rows ==> (IsRecent(rows, id) <==> IsRecent(others, id))
  {
    forall id | id in rows
      ensures Later(rows, rows[id].group, rows[id].created) == Later(others, others[id].group, others[id].created)
    {}
  }

  lemma StatusKeepsPresent(s: System, id: string, observed: State)
    requires Inv(s) && id in s.rows && Active(observed)
    ensures var state := StatusOf(s, id, observed);
            && (Active(s.rows[id].state) || !Active(state))
            && (Present(s, id) ==> Active(state) && (s.spawning == Some(id) ==> state == Starting))
  {}

  /** A status check keeps the run active. */
  predicate Lives(s: System, id: string)
    requires id in s.rows
  {
    Active(s.rows[id].state) && (Owned(s, id) || StillSpawning(s, id))
  }

  /** Whatever the engine reports. */
  lemma StatusLives(s: System, id: string, observed: State)
    requires id in s.rows && Active(observed)
    ensures Active(StatusOf(s, id, observed)) <==> Lives(s, id)
  {}

  lemma StateStepKeeps(s: System, step: Step)
    requires Inv(s) && Enabled(s, step) && !Loses(s, step) && (step.Observe? || step.Control? || step.Watched? || step.SpawnFails?)
    ensures Inv(Next(s, step))
  {
    hide ApartInv; hide SlotInv; hide StartInv; hide IsRecent; hide StatusOf; hide PresentInv;
    match step
    case Observe(id, observed) =>
      StatusKeepsPresent(s, id, observed);
      SettlingKeeps(s, Next(s, step), id);
    case Control(id, to) => SettlingKeeps(s, Next(s, step), id);
    case Watched(id, final) => SettlingKeeps(s, Next(s, step), id);
    case SpawnFails => SpawnFailureKeeps(s);
  }

  lemma SpawnFailureKeeps(s: System)
    requires Inv(s) && Enabled(s, SpawnFails) && !Loses(s, SpawnFails)
    ensures Inv(Next(s, SpawnFails))
  {
    hide SameAccount; hide Active; hide SlotInv; hide IsRecent; hide StillSpawning;
    SpawnFailureFreesSlot(s);
    SpawnFailureKeepsPresent(s);
  }

  lemma SpawnFailureKeepsPresent(s: System)
    requires Inv(s) && Enabled(s, SpawnFails) && !Loses(s, SpawnFails)
    ensures PresentInv(Next(s, SpawnFails))
  {
    hide SameAccount; hide Active; hide SlotInv; hide IsRecent; hide StillSpawning; hide ApartInv;
    var t := Next(s, SpawnFails);
    SameTimes(s.rows, t.rows);
    forall other | Present(t, other)
      ensures Visible(t, other)
    {
      assert Present(s, other) && Visible(s, other);
    }
  }

  lemma SpawnFailureFreesSlot(s: System)
    requires Inv(s) && Enabled(s, SpawnFails) && !Loses(s, SpawnFails)
    ensures SlotInv(Next(s, SpawnFails))
  {
    hide PresentInv; hide SpawnInv; hide ApartInv; hide Active;
    SubsetIsSmaller(Occupied(Next(s, SpawnFails)), Occupied(s));
  }

  lemma CheckRowKeeps(s: System, id: string, observed: State)
    requires Inv(s) && Enabled(s, CheckRow(id, observed))
    ensures Inv(Next(s, CheckRow(id, observed)))
  {
    hide ApartInv; hide IsRecent; hide StatusOf; hide PresentInv; hide Active;
    var t := Next(s, CheckRow(id, observed));
    StatusKeepsPresent(s, id, observed);
    var settled := WithState(s, id, StatusOf(s, id, observed));
    SettlingKeeps(s, settled, id);
    StartingIsFree(settled, t);
    assert Occupied(t) == Occupied(settled);
  }

  /** Where the start stands does not matter to the other parts. */
  lemma StartingIsFree(s: System, t: System)
    requires t == s.(starting := t.starting)
    ensures PresentInv(s) ==> PresentInv(t)
    ensures SpawnInv(s) ==> SpawnInv(t)
    ensures ApartInv(s) ==> ApartInv(t)
  {
    hide Active; hide IsRecent; hide SameAccount;
    assert forall id :: Present(t, id) == Present(s, id);
    assert PresentInv(s) ==> forall id :: Present(t, id) ==> Visible(s, id);
  }

  // ---- Starting -------------------------------------------------------------------------------

  lemma OccupiedIsUsed(s: System)
    requires Inv(s)
    ensures Occupied(s) <= Used(s)
  {}

  lemma CheckingKeeps(s: System, step: Step)
    requires Inv(s) && Enabled(s, step) && (step.Begin? || step.Sweep? || step.CheckRoom? || step.GiveUp?)
    ensures Inv(Next(s, step))
  {
    hide PresentInv; hide SpawnInv; hide ApartInv; hide Active; hide SameAccount; hide Used;
    var t := Next(s, step);
    StartingIsFree(s, t);
    assert Occupied(t) == Occupied(s);
    OccupiedIsUsed(s);
    SubsetIsSmaller(Occupied(s), Used(s));
  }

  /** A cleared start competes with nothing that is present. */
  lemma ClearedIsAlone(s: System, other: string)
    requires Inv(s) && s.starting.Some? && Cleared(s, s.starting.value) && Present(s, other) && other in s.rows
    ensures s.rows[other].group != s.starting.value.group && !SameAccount(s.registry, s.starting.value.group, s.rows[other].group)
  {}

  lemma InsertKeepsPresent(s: System, id: string)
    requires Inv(s) && Enabled(s, Insert(id)) && !Hides(s, Insert(id))
    ensures PresentInv(Next(s, Insert(id))) && SpawnInv(Next(s, Insert(id)))
  {
    hide ApartInv; hide SameAccount; hide SlotInv;
    var t := Next(s, Insert(id));
    var group := s.starting.value.group;
    assert Later(t.rows, group, s.now) == Later(s.rows, group, s.now);
    forall other | Present(t, other)
      ensures Visible(t, other)
    {
      if other != id {
        assert Present(s, other) && Visible(s, other);
        ClearedIsAlone(s, other);
        assert Later(t.rows, t.rows[other].group, t.rows[other].created) == Later(s.rows, s.rows[other].group, s.rows[other].created);
      }
    }
  }

  lemma InsertKeepsRest(s: System, id: string)
    requires Inv(s) && Enabled(s, Insert(id)) && !Hides(s, Insert(id))
    ensures ApartInv(Next(s, Insert(id))) && StartInv(Next(s, Insert(id)))
  {
    hide SpawnInv; hide PresentInv; hide IsRecent; hide Active; hide Cleared; hide SlotInv; hide SameAccount;
    var t := Next(s, Insert(id));
    var group := s.starting.value.group;
    forall other | Present(s, other) && other in s.rows
      ensures s.rows[other].group != group
      ensures !SameAccount(s.registry, group, s.rows[other].group) && !SameAccount(s.registry, s.rows[other].group, group)
    {
      ClearedIsAlone(s, other);
      AccountIsSymmetric(s.registry, group, s.rows[other].group);
    }
  }

  lemma AccountIsSymmetric(registry: Registry, a: string, b: string)
    ensures SameAccount(registry, a, b) <==> SameAccount(registry, b, a)
  {}

  lemma InsertKeepsSlots(s: System, id: string)
    requires Inv(s) && Enabled(s, Insert(id)) && !Hides(s, Insert(id))
    ensures SlotInv(Next(s, Insert(id)))
  {
    hide SpawnInv; hide PresentInv; hide IsRecent; hide Active; hide SameAccount; hide ApartInv; hide Occupied;
    var t := Next(s, Insert(id));
    OneMoreOccupied(s, t, id);
  }

  lemma OneMoreOccupied(s: System, t: System, id: string)
    requires id !in s.rows && s.spawning.None? && t.spawning == Some(id) && t.live == s.live && id in t.rows && t.rows == s.rows[id := t.rows[id]]
    ensures |Occupied(t)| == |Occupied(s)| + if t.rows[id].modelHash then 1 else 0
  {
    assert Occupied(t) == if t.rows[id].modelHash then Occupied(s) + {id} else Occupied(s);
  }

  lemma InsertKeeps(s: System, id: string)
    requires Inv(s) && Enabled(s, Insert(id)) && !Hides(s, Insert(id))
    ensures Inv(Next(s, Insert(id)))
  {
    hide SpawnInv; hide PresentInv; hide ApartInv; hide StartInv; hide SlotInv; hide Cleared;
    InsertKeepsPresent(s, id);
    InsertKeepsRest(s, id);
    InsertKeepsSlots(s, id);
  }

  lemma BornKeeps(s: System)
    requires Inv(s) && Enabled(s, Born)
    ensures Inv(Next(s, Born))
  {
    hide SameAccount; hide Active; hide IsRecent;
    var t := Next(s, Born);
    assert forall id :: Present(t, id) == Present(s, id);
    assert forall id :: Present(t, id) ==> Visible(s, id);
    assert Occupied(t) == Occupied(s);
  }

  lemma RecordedKeeps(s: System)
    requires Inv(s) && Enabled(s, Recorded)
    ensures Inv(Next(s, Recorded))
  {
    hide SameAccount; hide Active; hide IsRecent;
    var t := Next(s, Recorded);
    SameTimes(s.rows, t.rows);
    assert forall id :: Present(t, id) ==> Visible(s, id);
    assert Occupied(t) == Occupied(s);
  }

  lemma TickKeeps(s: System, seconds: int)
    requires Inv(s) && Enabled(s, Tick(seconds))
    ensures Inv(Next(s, Tick(seconds)))
  {
    hide SameAccount; hide Active; hide IsRecent;
    var t := Next(s, Tick(seconds));
    assert forall id :: Present(t, id) ==> Visible(s, id);
    assert Occupied(t) == Occupied(s);
  }

  lemma ExitKeeps(s: System, id: string)
    requires Inv(s) && Enabled(s, Exit(id))
    ensures Inv(Next(s, Exit(id)))
  {
    hide SameAccount; hide Active; hide IsRecent;
    var t := Next(s, Exit(id));
    assert forall x :: Present(t, x) ==> Visible(s, x);
    SubsetIsSmaller(Occupied(t), Occupied(s));
  }

  /** Between starts, every process is one that a recent active row names. */
  lemma LiveIsOwned(s: System, id: string)
    requires PresentInv(s) && s.spawning.None? && id in s.live
    ensures id in s.rows && s.rows[id].group in s.registry.groups && IsRecent(s.rows, id) && Active(s.rows[id].state) && Owned(s, id)
  {
    hide IsRecent; hide Active;
    assert Present(s, id) && Visible(s, id);
  }

  /** The registry is replaced only while nothing runs at all. */
  lemma ReloadFindsNothing(s: System, registry: Registry)
    requires Inv(s) && Enabled(s, Reload(registry))
    ensures s.live == {} && Inv(Next(s, Reload(registry)))
  {
    hide SameAccount; hide IsRecent; hide Active;
    forall id
      ensures id !in s.live
    {
      if id in s.live {
        LiveIsOwned(s, id);
        assert false;
      }
    }
    assert Occupied(Next(s, Reload(registry))) == {};
  }

  lemma StepKeeps(s: System, step: Step)
    requires Inv(s) && Enabled(s, step) && !Loses(s, step)
    ensures Inv(Next(s, step))
  {
    hide Inv; hide Enabled; hide Next; hide Forgets; hide Hides;
    match step
    case Tick(seconds) => TickKeeps(s, seconds);
    case CheckRow(id, observed) => CheckRowKeeps(s, id, observed);
    case Insert(id) => InsertKeeps(s, id);
    case Born => BornKeeps(s);
    case Recorded => RecordedKeeps(s);
    case Exit(id) => ExitKeeps(s, id);
    case Reload(registry) => ReloadFindsNothing(s, registry);
    case Begin(_) => CheckingKeeps(s, step);
    case Sweep => CheckingKeeps(s, step);
    case CheckRoom => CheckingKeeps(s, step);
    case GiveUp => CheckingKeeps(s, step);
    case Crash => CrashKeeps(s);
    case _ => StateStepKeeps(s, step);
  }

  /** A crash before the process is born, or after its end, only drops the start. */
  lemma CrashKeeps(s: System)
    requires Inv(s) && !Loses(s, Crash)
    ensures Inv(Next(s, Crash))
  {
    hide SameAccount; hide Active; hide IsRecent; hide StillSpawning;
    var t := Next(s, Crash);
    SubsetIsSmaller(Occupied(t), Occupied(s));
    forall id | Present(t, id)
      ensures Visible(t, id)
    {
      assert Present(s, id) && Visible(s, id);
    }
  }

  lemma {:induction false} PathKeeps(states: seq<System>, steps: seq<Step>, i: nat)
    requires IsPath(states, steps) && i < |states| && Inv(states[0]) && NothingLost(states, steps)
    ensures Inv(states[i])
  {
    hide Inv; hide Enabled; hide Next; hide Loses;
    if i > 0 {
      PathKeeps(states, steps, i - 1);
      StepKeeps(states[i - 1], steps[i - 1]);
    }
  }

  lemma EmptyHolds(registry: Registry)
    ensures Inv(Initial(registry))
  {}

  /** Two processes never belong to one group, two live processes never share an account, and the processes that run a model fit in
      the slots; every process is among the rows that a start looks at. */
  ghost predicate Exclusive(s: System) {
    && (forall a :: a in s.live ==> a in s.rows && IsRecent(s.rows, a) && Active(s.rows[a].state))
    && (forall a, b :: a in s.live && b in s.live && s.rows[a].group == s.rows[b].group ==> a == b)
    && (forall a, b :: a in s.live && b in s.live && SameAccount(s.registry, s.rows[a].group, s.rows[b].group) ==> a == b)
    && (s.registry.limit.Some? ==> |set a | a in s.live && s.rows[a].modelHash| <= s.registry.limit.value)
  }

  lemma InvariantMeansExclusive(s: System)
    requires Inv(s)
    ensures Exclusive(s)
  {
    hide IsRecent; hide SameAccount; hide Active; hide IsRecent;
    forall a | a in s.live
      ensures a in s.rows && IsRecent(s.rows, a) && Active(s.rows[a].state)
    {
      assert Present(s, a) && Visible(s, a);
    }
    forall a, b | a in s.live && b in s.live && s.rows[a].group == s.rows[b].group
      ensures a == b
    {
      assert Present(s, a) && Present(s, b);
    }
    var models := set a | a in s.live && s.rows[a].modelHash;
    SubsetIsSmaller(models, Occupied(s));
  }

  /** In every run of the supervisor, with crashes at any moment and a clock that may be set back, in which no process is forgotten
      between its birth and the record of its pid, and no start is dated before 20 others of its group. */
  lemma RunsAreExclusive(registry: Registry, states: seq<System>, steps: seq<Step>, i: nat)
    requires IsPath(states, steps) && states[0] == Initial(registry) && NothingLost(states, steps) && i < |states|
    ensures Exclusive(states[i])
  {
    hide Inv; hide IsPath; hide NothingLost; hide Exclusive;
    EmptyHolds(registry);
    PathKeeps(states, steps, i);
    InvariantMeansExclusive(states[i]);
  }
}
