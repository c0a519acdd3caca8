/** Which runs may start, as values: the runs table, the processes that are alive, and the one start in progress. */
module RunsModel {
  import opened Common

  datatype State =
    | Starting | Running | Halted | Reducing | Stopping | Unresponsive | Error | Recovering | EngineStopped
    | Interrupted | Failed | Stopped | Completed

  predicate Active(state: State) {
    state in {Starting, Running, Halted, Reducing, Stopping, Unresponsive, Error, Recovering, EngineStopped}
  }

  datatype Kind = Sandbox | Live | ModelShadow

  /** modelRun: the group runs a model, so its runs carry a model hash. */
  datatype Spec = Spec(kind: Kind, profile: string, modelRun: bool)
  datatype Registry = Registry(groups: map<string, Spec>, limit: Option<nat>)

  datatype Row = Row(group: string, state: State, created: int, hasPid: bool, modelHash: bool)

  /** checked holds the runs found inactive by this start; swept and roomy are its two other checks. */
  datatype Start = Start(group: string, checked: set<string>, swept: bool, roomy: bool)

  /** live holds the runs whose process exists. starting and spawning are the two halves of a start, under the lock. */
  datatype System = System(registry: Registry, rows: map<string, Row>, live: set<string>, now: int, starting: Option<Start>,
                           spawning: Option<string>)

  const SPAWN_SECONDS := 30
  const RECENT: nat := 20

  function Later(rows: map<string, Row>, group: string, time: int): set<string> {
    set other | other in rows && rows[other].group == group && rows[other].created > time
  }

  /** Among the 20 newest rows of its group. */
  predicate IsRecent(rows: map<string, Row>, id: string)
    requires id in rows
  {
    |Later(rows, rows[id].group, rows[id].created)| < RECENT
  }

  predicate Owned(s: System, id: string)
    requires id in s.rows
  {
    s.rows[id].hasPid && id in s.live
  }

  predicate StillSpawning(s: System, id: string)
    requires id in s.rows
  {
    s.rows[id].state.Starting? && !s.rows[id].hasPid && s.now - s.rows[id].created < SPAWN_SECONDS
  }

  /** The state a status check leaves a run in; observed is what a reachable engine reports. */
  function StatusOf(s: System, id: string, observed: State): State
    requires id in s.rows
  {
    var state := s.rows[id].state;
    if !Active(state) then state
    else if !Owned(s, id) && !StillSpawning(s, id) then Interrupted
    else if Owned(s, id) && !state.Stopping? then observed
    else state
  }

  /** The runs counted against the model slots. */
  function Used(s: System): set<string> {
    set id | id in s.rows && Active(s.rows[id].state) && s.rows[id].modelHash && (StillSpawning(s, id) || Owned(s, id))
  }

  predicate Room(s: System) { s.registry.limit.Some? ==> |Used(s)| < s.registry.limit.value }

  /** Another run of the same account that a new run of the group would compete with. */
  predicate SameAccount(registry: Registry, group: string, other: string) {
    group in registry.groups && other in registry.groups && registry.groups[group].kind.Live? && registry.groups[other].kind.Live?
    && registry.groups[group].profile == registry.groups[other].profile
  }

  /** Every recent row that could hide a running process has been checked. */
  predicate Cleared(s: System, start: Start) {
    && start.group in s.registry.groups
    && (forall id :: id in s.rows && (s.rows[id].group == start.group || SameAccount(s.registry, start.group, s.rows[id].group)) ==>
          (IsRecent(s.rows, id) ==> id in start.checked))
    && (s.registry.groups[start.group].kind.Live? ==> start.swept)
    && (s.registry.groups[start.group].modelRun ==> start.roomy)
  }

  datatype Step =
    | Tick(seconds: int)
    | Begin(group: string)
    | CheckRow(id: string, observed: State)
    | Sweep
    | CheckRoom
    | GiveUp
    | Insert(id: string)
    | Born
    | Recorded
    | SpawnFails
    | Observe(id: string, observed: State)
    | Control(id: string, to: State)
    | Exit(id: string)
    | Watched(id: string, final: State)
    | Reload(registry: Registry)
    | Crash

  predicate Idle(s: System) { s.starting.None? && s.spawning.None? }

  predicate Enabled(s: System, step: Step) {
    match step
    case Tick(seconds) =>
      // the clock may be set forward or back, but a spawn ends within 30 seconds on it
      s.spawning.Some? && s.spawning.value in s.rows ==> s.now + seconds - s.rows[s.spawning.value].created < SPAWN_SECONDS
    case Begin(group) => Idle(s) && group in s.registry.groups
    case CheckRow(id, observed) => s.starting.Some? && id in s.rows && Active(observed)
    case Sweep => s.starting.Some?
    case CheckRoom => s.starting.Some?
    case GiveUp => s.starting.Some?
    case Insert(id) =>
      && s.starting.Some? && Cleared(s, s.starting.value)
      // identifiers and creation times are new
      && id !in s.rows && id !in s.live && forall other :: other in s.rows ==> s.rows[other].created != s.now
    case Born => s.spawning.Some?
    case Recorded => s.spawning.Some? && s.spawning.value in s.rows && s.spawning.value in s.live
    // creating the process raises, or recording the pid of one that lives
    case SpawnFails => s.spawning.Some? && s.spawning.value in s.rows
    case Observe(id, observed) => id in s.rows && Active(observed)
    // a control has first found the process that the row names
    case Control(id, to) => id in s.rows && s.rows[id].hasPid && Active(s.rows[id].state) && !s.rows[id].state.Stopping? && Active(to)
    case Exit(id) => id in s.live
    case Watched(id, final) => id in s.rows && s.rows[id].hasPid && id !in s.live && !Active(final)
    case Reload(_) =>
      Idle(s) && forall id :: id in s.rows && s.rows[id].group in s.registry.groups && IsRecent(s.rows, id) ==>
                              !(Active(s.rows[id].state) && Owned(s, id))
    case Crash => true
  }

  function WithState(s: System, id: string, state: State): System
    requires id in s.rows
  {
    s.(rows := s.rows[id := s.rows[id].(state := state)])
  }

  function Next(s: System, step: Step): System
    requires Enabled(s, step)
  {
    match step
    case Tick(seconds) => s.(now := s.now + seconds)
    case Begin(group) => s.(starting := Some(Start(group, {}, false, false)))
    case CheckRow(id, observed) =>
      var start := s.starting.value;
      var state := StatusOf(s, id, observed);
      WithState(s, id, state).(starting := if Active(state) then None else Some(start.(checked := start.checked + {id})))
    case Sweep =>
      var start := s.starting.value;
      var busy := exists id :: id in s.rows && Active(s.rows[id].state) && SameAccount(s.registry, start.group, s.rows[id].group) && Owned(s, id);
      s.(starting := if busy then None else Some(start.(swept := true)))
    case CheckRoom => s.(starting := if Room(s) then Some(s.starting.value.(roomy := true)) else None)
    case GiveUp => s.(starting := None)
    case Insert(id) =>
      var group := s.starting.value.group;
      s.(rows := s.rows[id := Row(group, Starting, s.now, false, s.registry.groups[group].modelRun)], starting := None, spawning := Some(id))
    case Born => s.(live := s.live + {s.spawning.value})
    case Recorded => s.(rows := s.rows[s.spawning.value := s.rows[s.spawning.value].(hasPid := true)], spawning := None)
    case SpawnFails => WithState(s, s.spawning.value, Failed).(spawning := None)
    case Observe(id, observed) => WithState(s, id, StatusOf(s, id, observed))
    case Control(id, to) => WithState(s, id, to)
    case Exit(id) => s.(live := s.live - {id})
    case Watched(id, final) => WithState(s, id, final)
    case Reload(registry) => s.(registry := registry)
    case Crash => s.(starting := None, spawning := None)
  }

  /** The supervisor forgets a process that it has created but not recorded. */
  predicate Forgets(s: System, step: Step) {
    (step.Crash? || step.SpawnFails?) && s.spawning.Some? && s.spawning.value in s.live
  }

  /** The clock has gone back over 20 starts of the group, so that the new row is not among the recent ones. */
  predicate Hides(s: System, step: Step) {
    step.Insert? && s.starting.Some? && |Later(s.rows, s.starting.value.group, s.now)| >= RECENT
  }

  predicate Loses(s: System, step: Step) { Forgets(s, step) || Hides(s, step) }

  /** Any continuation, from any state. */
  predicate IsPath(states: seq<System>, steps: seq<Step>) {
    && |states| == |steps| + 1
    && forall i :: 0 <= i < |steps| ==> Enabled(states[i], steps[i]) && states[i + 1] == Next(states[i], steps[i])
  }

  /** No process is forgotten and no run hidden on the way. */
  predicate NothingLost(states: seq<System>, steps: seq<Step>)
    requires |states| == |steps| + 1
  {
    forall i :: 0 <= i < |steps| ==> !Loses(states[i], steps[i])
  }

  function Initial(registry: Registry): System { System(registry, map[], {}, 0, None, None) }
}
