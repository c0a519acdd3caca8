/** The supervisor's start checks over its runs table. */
module Runs {
  import opened Common
  import M = RunsModel
  import opened RunsProofs

  class RunTable {
    var registry: M.Registry
    var rows: map<string, M.Row>
    var live: set<string>
    var now: int
    var starting: Option<M.Start>
    var spawning: Option<string>

    ghost function View(): M.System
      reads this
    {
      M.System(registry, rows, live, now, starting, spawning)
    }

    constructor (registry: M.Registry)
      ensures View() == M.Initial(registry) && Inv(View())
    {
      this.registry, rows, live, now, starting, spawning := registry, map[], {}, 0, None, None;
      new;
      EmptyHolds(registry);
    }

    /** The process a row names, if it is still that process. */
    function OwnedProcess(id: string): bool
      reads this
      requires id in rows
    {
      rows[id].hasPid && id in live
    }

    method RunStatus(id: string, observed: M.State) returns (state: M.State)
      requires id in rows
      modifies `rows
      ensures state == M.StatusOf(old(View()), id, observed) && rows == old(rows)[id := old(rows)[id].(state := state)]
    {
      state := rows[id].state;
      if M.Active(state) {
        var process := OwnedProcess(id);
        var young := state.Starting? && !rows[id].hasPid && now - rows[id].created < M.SPAWN_SECONDS;
        if !process && !young {
          state := M.Interrupted;
        } else if process && !state.Stopping? {
          state := observed;
        }
      }
      rows := rows[id := rows[id].(state := state)];
    }

    /** The start checks of one group: every recent row is brought up to date, and one active row refuses the start. Whatever the
        engines report, an accepted start has no process of the group beside it. */
    method RequireIdle(recent: seq<string>, observed: seq<M.State>) returns (ok: bool)
      requires Inv(View()) && starting.Some? && |observed| == |recent|
      requires forall i :: 0 <= i < |recent| ==> recent[i] in rows && M.Active(observed[i])
      modifies `rows, `starting
      ensures Inv(View()) && rows.Keys == old(rows.Keys)
      ensures ok <==> starting.Some?
      ensures ok <==> forall id :: id in recent ==> !old(Lives(View(), id))
      ensures ok ==> (starting.value.group == old(starting).value.group && old(starting).value.checked <= starting.value.checked
                      && starting.value.swept == old(starting).value.swept && starting.value.roomy == old(starting).value.roomy
                      && forall id :: id in recent ==> id in starting.value.checked && !M.Active(rows[id].state) && id !in live)
    {
      hide Inv; hide M.Active; hide M.StatusOf;
      for i := 0 to |recent|
        invariant Inv(View()) && rows.Keys == old(rows.Keys) && starting.Some?
        invariant starting.value == old(starting).value.(checked := starting.value.checked) && old(starting).value.checked <= starting.value.checked
        invariant forall j :: 0 <= j < i ==> recent[j] in starting.value.checked && !old(Lives(View(), recent[j]))
        invariant forall id :: id in rows ==> rows[id] == old(rows)[id] || (!M.Active(rows[id].state) && !old(Lives(View(), id)))
      {
        StatusLives(View(), recent[i], observed[i]);
        assert Lives(View(), recent[i]) <==> old(Lives(View(), recent[i]));
        CheckRowKeeps(View(), recent[i], observed[i]);
        var state := RunStatus(recent[i], observed[i]);
        if M.Active(state) {
          starting := None;
          return false;
        }
        starting := Some(starting.value.(checked := starting.value.checked + {recent[i]}));
      }
      ok := true;
      forall id | id in recent
        ensures id in starting.value.checked && !M.Active(rows[id].state) && id !in live
      {
        CheckedIsDead(View(), id);
      }
    }

    method ModelCapacity() returns (used: nat)
      ensures used == |M.Used(View())|
    {
      used := 0;
      var rest, counted := rows.Keys, {};
      ghost var all := M.Used(View());
      while rest != {}
        invariant rest <= rows.Keys && counted == all - rest && used == |counted|
        decreases |rest|
      {
        var id :| id in rest;
        var row := rows[id];
        rest := rest - {id};
        if M.Active(row.state) && row.modelHash {
          var young := row.state.Starting? && !row.hasPid && now - row.created < M.SPAWN_SECONDS;
          if young || OwnedProcess(id) {
            assert id in all;
            used, counted := used + 1, counted + {id};
          }
        }
      }
      assert all - rest == all;
    }

    method RequireModelCapacity() returns (ok: bool)
      ensures ok <==> M.Room(View())
    {
      var used := ModelCapacity();
      ok := registry.limit.None? || used < registry.limit.value;
    }

    /** The row is written before the process exists. */
    method Launch(id: string)
      requires Inv(View()) && M.Enabled(View(), M.Insert(id))
      modifies this
      ensures View() == M.Next(old(View()), M.Insert(id)) && (!old(M.Hides(View(), M.Insert(id))) ==> Inv(View()))
      ensures forall other :: other in live ==> (other in rows && rows[other].group != rows[id].group
                                                 && !M.SameAccount(registry, rows[id].group, rows[other].group))
    {
      hide SpawnInv; hide ApartInv; hide StartInv; hide SlotInv; hide M.SameAccount; hide M.IsRecent; hide M.Active;
      if !M.Hides(View(), M.Insert(id)) { InsertKeeps(View(), id); }
      forall other | other in live
        ensures other in rows && rows[other].group != starting.value.group && !M.SameAccount(registry, starting.value.group, rows[other].group)
      {
        assert Present(View(), other) && Visible(View(), other);
        ClearedIsAlone(View(), other);
      }
      var group := starting.value.group;
      rows := rows[id := M.Row(group, M.Starting, now, false, registry.groups[group].modelRun)];
      starting, spawning := None, Some(id);
    }
  }

  lemma CheckedIsDead(s: M.System, id: string)
    requires Inv(s) && s.starting.Some? && id in s.starting.value.checked
    ensures id in s.rows && !M.Active(s.rows[id].state) && id !in s.live
  {
    assert Present(s, id) ==> Visible(s, id);
  }
}
