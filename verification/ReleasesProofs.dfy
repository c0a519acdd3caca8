/** The publication history of each runner is one chain, whatever executors run beside each other and wherever they crash. */
module ReleasesProofs {
  import opened Common
  import opened ReleasesModel

  /** The release of the latest receipt of a runner. */
  function Last(operations: map<string, Stored>, order: seq<string>, runner: string): Option<string>
    requires forall op :: op in order ==> op in operations
  {
    if order == [] then None else
    var init, receipt := order[..|order| - 1], operations[order[|order| - 1]].receipt;
    assert forall op :: op in init ==> op in order;
    if receipt.runner == runner then Some(receipt.release) else Last(operations, init, runner)
  }

  /** Each stored release is what its manifest says, and no two share a runner and version. */
  ghost predicate ReleasesInv(m: Manifests, releases: map<string, Row>) {
    && (forall id :: id in releases ==>
          id == releases[id].release && m(releases[id].manifestHash) == Manifest(releases[id].release, releases[id].runner, releases[id].version))
    && (forall a, b :: a in releases && b in releases && releases[a].runner == releases[b].runner && releases[a].version == releases[b].version ==> a == b)
  }

  ghost predicate ActiveInv(c: Catalog) {
    forall runner :: runner in c.active ==> c.active[runner] in c.releases && c.releases[c.active[runner]].runner == runner
  }

  ghost predicate OrderInv(c: Catalog) {
    && (forall op :: op in c.order <==> op in c.operations)
    && (forall i, j :: 0 <= i < j < |c.order| ==> c.order[i] != c.order[j])
    && (forall op :: op in c.operations ==> c.operations[op].receipt.operation == op)
  }

  /** Every receipt names the release that was current before it, and the active pointer is the last link. */
  ghost predicate ChainInv(c: Catalog)
    requires OrderInv(c)
  {
    && (forall i :: 0 <= i < |c.order| ==> Linked(c, i))
    && (forall runner :: ActiveOf(c, runner) == Last(c.operations, c.order, runner))
  }

  ghost predicate Linked(c: Catalog, i: nat)
    requires OrderInv(c) && i < |c.order|
  {
    var receipt := c.operations[c.order[i]].receipt;
    assert forall op :: op in c.order[..i] ==> op in c.order;
    receipt.previous == Last(c.operations, c.order[..i], receipt.runner)
  }

  /** A rollback in preparation is of a stored release, exactly as it is stored: releases are never changed or removed. */
  ghost predicate PreparedInv(c: Catalog) {
    forall e :: e in c.prepared && c.prepared[e].request.subject.Rollback? ==>
      var release := c.prepared[e].request.subject.release;
      release in c.releases && c.releases[release].manifestHash == c.prepared[e].preview.manifestHash
  }

  ghost predicate Inv(m: Manifests, c: Catalog) {
    ReleasesInv(m, c.releases) && ActiveInv(c) && OrderInv(c) && ChainInv(c) && PreparedInv(c)
  }

  lemma {:induction false} LastIgnores(operations: map<string, Stored>, others: map<string, Stored>, order: seq<string>, runner: string)
    requires forall op :: op in order ==> op in operations && op in others && others[op] == operations[op]
    ensures Last(operations, order, runner) == Last(others, order, runner)
  {
    if order != [] {
      assert forall op :: op in order[..|order| - 1] ==> op in order;
      LastIgnores(operations, others, order[..|order| - 1], runner);
    }
  }

  lemma LastAppend(operations: map<string, Stored>, order: seq<string>, op: string, runner: string)
    requires op in operations && forall x :: x in order ==> x in operations
    ensures Last(operations, order + [op], runner)
         == if operations[op].receipt.runner == runner then Some(operations[op].receipt.release) else Last(operations, order, runner)
  {}

  lemma CommitIs(m: Manifests, c: Catalog, p: Prepared, existing: Option<string>, filesMatch: bool, room: bool)
    requires Found(c.releases, m(p.preview.manifestHash), existing)
    ensures var (d, reply) := Commit(m, c, p, existing, filesMatch, room);
            var manifest := m(p.preview.manifestHash);
            d == c || (p.operation !in c.operations && ActiveOf(c, manifest.runner) == p.request.expected
                       && d.active == c.active[manifest.runner := manifest.release] && d.order == c.order + [p.operation]
                       && d.operations == c.operations[p.operation :=
                            Stored(p.request, Receipt(p.operation, manifest.release, manifest.runner, p.request.expected))]
                       && d.prepared == c.prepared)
  {}

  lemma CommitKeepsReleases(m: Manifests, c: Catalog, p: Prepared, existing: Option<string>, filesMatch: bool, room: bool)
    requires ReleasesInv(m, c.releases) && ActiveInv(c) && Found(c.releases, m(p.preview.manifestHash), existing)
    requires p.request.subject.Rollback? ==>
               p.request.subject.release in c.releases && c.releases[p.request.subject.release].manifestHash == p.preview.manifestHash
    ensures var d := Commit(m, c, p, existing, filesMatch, room).0;
            ReleasesInv(m, d.releases) && ActiveInv(d) && (forall id :: id in c.releases ==> id in d.releases && d.releases[id] == c.releases[id])
  {
    hide Commit; hide ReleasesInv; hide ActiveInv; hide Found;
    CommitKeepsStored(m, c, p, existing, filesMatch, room);
    CommitKeepsActive(m, c, p, existing, filesMatch, room);
  }

  lemma CommitKeepsStored(m: Manifests, c: Catalog, p: Prepared, existing: Option<string>, filesMatch: bool, room: bool)
    requires ReleasesInv(m, c.releases) && Found(c.releases, m(p.preview.manifestHash), existing)
    ensures var d := Commit(m, c, p, existing, filesMatch, room).0;
            ReleasesInv(m, d.releases) && (forall id :: id in c.releases ==> id in d.releases && d.releases[id] == c.releases[id])
  {
    hide ActiveOf; hide Prior; hide ReleasesInv; hide Matches;
    if existing.None? { AddingKeeps(m, c.releases, p.preview); }
  }

  /** A release that matches no stored one joins them under its own name. */
  lemma AddingKeeps(m: Manifests, releases: map<string, Row>, preview: Preview)
    requires ReleasesInv(m, releases) && forall id :: id in releases ==> !Matches(releases[id], m(preview.manifestHash))
    ensures var manifest := m(preview.manifestHash);
            var row := Row(manifest.release, manifest.runner, manifest.version, preview.manifestHash, preview.artifactHash, preview.bytes);
            manifest.release !in releases && ReleasesInv(m, releases[manifest.release := row])
  {}

  lemma CommitKeepsActive(m: Manifests, c: Catalog, p: Prepared, existing: Option<string>, filesMatch: bool, room: bool)
    requires ReleasesInv(m, c.releases) && ActiveInv(c) && Found(c.releases, m(p.preview.manifestHash), existing)
    requires p.request.subject.Rollback? ==>
               p.request.subject.release in c.releases && c.releases[p.request.subject.release].manifestHash == p.preview.manifestHash
    ensures ActiveInv(Commit(m, c, p, existing, filesMatch, room).0)
  {
    hide ActiveOf; hide Prior;
  }

  lemma CommitKeepsOrder(m: Manifests, c: Catalog, p: Prepared, existing: Option<string>, filesMatch: bool, room: bool)
    requires OrderInv(c) && Found(c.releases, m(p.preview.manifestHash), existing)
    ensures OrderInv(Commit(m, c, p, existing, filesMatch, room).0)
  {}

  lemma CommitKeepsChain(m: Manifests, c: Catalog, p: Prepared, existing: Option<string>, filesMatch: bool, room: bool)
    requires OrderInv(c) && ChainInv(c) && Found(c.releases, m(p.preview.manifestHash), existing)
    ensures OrderInv(Commit(m, c, p, existing, filesMatch, room).0) && ChainInv(Commit(m, c, p, existing, filesMatch, room).0)
  {
    hide Commit; hide Last; hide Found; hide Linked;
    CommitIs(m, c, p, existing, filesMatch, room);
    CommitKeepsOrder(m, c, p, existing, filesMatch, room);
    var d := Commit(m, c, p, existing, filesMatch, room).0;
    if d != c {
      forall i | 0 <= i < |d.order|
        ensures Linked(d, i)
      {
        LinkStays(c, d, i);
      }
      forall runner
        ensures ActiveOf(d, runner) == Last(d.operations, d.order, runner)
      {
        LastAppend(d.operations, c.order, p.operation, runner);
        LastIgnores(c.operations, d.operations, c.order, runner);
        assert ActiveOf(c, runner) == Last(c.operations, c.order, runner);
      }
    }
  }

  lemma LinkStays(c: Catalog, d: Catalog, i: nat)
    requires OrderInv(c) && ChainInv(c) && OrderInv(d) && |d.order| == |c.order| + 1 && i < |d.order|
    requires d.order == c.order + [d.order[|c.order|]] && d.order[|c.order|] !in c.operations
    requires forall op :: op in c.operations ==> op in d.operations && d.operations[op] == c.operations[op]
    requires var receipt := d.operations[d.order[|c.order|]].receipt; receipt.previous == ActiveOf(c, receipt.runner)
    ensures Linked(d, i)
  {
    hide Last; hide ActiveOf;
    var receipt := d.operations[d.order[i]].receipt;
    assert d.order[..i] == c.order[..i];
    LastIgnores(c.operations, d.operations, c.order[..i], receipt.runner);
    if i < |c.order| {
      assert Linked(c, i) && d.order[i] == c.order[i];
    } else {
      assert c.order[..i] == c.order;
    }
  }

  lemma PreparingKeeps(m: Manifests, c: Catalog, executor: string, operation: string, request: Request, content: Option<Preview>)
    requires Inv(m, c)
    ensures Inv(m, Prepare(m, c, executor, operation, request, content).0)
  {
    hide Last; hide ReleasesInv;
    SameChain(c, Prepare(m, c, executor, operation, request, content).0);
  }

  lemma SameChain(c: Catalog, d: Catalog)
    requires OrderInv(c) && ChainInv(c) && d == c.(prepared := d.prepared)
    ensures OrderInv(d) && ChainInv(d)
  {
    hide Last;
    forall i | 0 <= i < |d.order|
      ensures Linked(d, i)
    {
      assert Linked(c, i);
    }
    assert forall runner :: ActiveOf(d, runner) == ActiveOf(c, runner);
  }

  lemma StepKeeps(m: Manifests, c: Catalog, step: Step)
    requires Inv(m, c) && Enabled(m, c, step)
    ensures Inv(m, Next(m, c, step).0)
  {
    hide ReleasesInv; hide ActiveInv; hide ChainInv; hide Commit; hide Prepare; hide Found; hide OrderInv;
    match step
    case Preparing(executor, operation, request, content) => PreparingKeeps(m, c, executor, operation, request, content);
    case Crash(executor) => DroppingKeeps(m, c, executor);
    case Committing(executor, existing, filesMatch, room) =>
      var p := c.prepared[executor];
      CommitKeepsReleases(m, c, p, existing, filesMatch, room);
      CommitKeepsChain(m, c, p, existing, filesMatch, room);
      CommitKeepsPrepared(m, c, p, existing, filesMatch, room);
      DroppingKeeps(m, Commit(m, c, p, existing, filesMatch, room).0, executor);
  }

  lemma CommitKeepsPrepared(m: Manifests, c: Catalog, p: Prepared, existing: Option<string>, filesMatch: bool, room: bool)
    requires PreparedInv(c) && Found(c.releases, m(p.preview.manifestHash), existing)
    requires var d := Commit(m, c, p, existing, filesMatch, room).0; forall id :: id in c.releases ==> id in d.releases && d.releases[id] == c.releases[id]
    ensures PreparedInv(Commit(m, c, p, existing, filesMatch, room).0)
  {}

  lemma DroppingKeeps(m: Manifests, c: Catalog, executor: string)
    requires Inv(m, c)
    ensures Inv(m, c.(prepared := c.prepared - {executor}))
  {
    hide ReleasesInv; hide Last;
    SameChain(c, c.(prepared := c.prepared - {executor}));
  }

  // ---- Whole runs -----------------------------------------------------------------------------

  ghost predicate IsRun(m: Manifests, states: seq<Catalog>, steps: seq<Step>) {
    && |states| == |steps| + 1 && states[0] == EMPTY
    && forall i :: 0 <= i < |steps| ==> Enabled(m, states[i], steps[i]) && states[i + 1] == Next(m, states[i], steps[i]).0
  }

  lemma {:induction false} RunKeeps(m: Manifests, states: seq<Catalog>, steps: seq<Step>, i: nat)
    requires IsRun(m, states, steps) && i < |states|
    ensures Inv(m, states[i])
  {
    hide Inv; hide Enabled; hide Next;
    if i == 0 {
      EmptyHolds(m);
    } else {
      RunKeeps(m, states, steps, i - 1);
      StepKeeps(m, states[i - 1], steps[i - 1]);
    }
  }

  lemma EmptyHolds(m: Manifests)
    ensures Inv(m, EMPTY)
  {}

  /** In every run: each receipt's previous release is the release of the receipt before it for that runner, the active pointer is
      the last receipt's release, and it names a stored release of that runner. */
  lemma HistoryIsAChain(m: Manifests, states: seq<Catalog>, steps: seq<Step>, i: nat)
    requires IsRun(m, states, steps) && i < |states|
    ensures OrderInv(states[i]) && ChainInv(states[i]) && ActiveInv(states[i]) && ReleasesInv(m, states[i].releases)
  {
    hide IsRun; hide ChainInv; hide OrderInv; hide ActiveInv; hide ReleasesInv;
    RunKeeps(m, states, steps, i);
  }

  /** What a request under an operation already committed is answered. */
  function Replay(c: Catalog, operation: string, request: Request): Reply
    requires operation in c.operations
  {
    if request == c.operations[operation].request then Answered(c.operations[operation].receipt) else Conflict
  }

  /** A committed operation keeps its receipt for good: answering it again adds no link, whichever phase answers. */
  lemma ReplayAddsNothing(m: Manifests, c: Catalog, step: Step, operation: string)
    requires Inv(m, c) && Enabled(m, c, step) && operation in c.operations
    ensures var (d, reply) := Next(m, c, step);
            && operation in d.operations && d.operations[operation] == c.operations[operation]
            && (step.Preparing? && step.operation == operation ==> d == c && reply == Replay(c, operation, step.request))
            && (step.Committing? && c.prepared[step.executor].operation == operation ==>
                  d.order == c.order && d.active == c.active && reply == Replay(c, operation, c.prepared[step.executor].request))
  {}
}
