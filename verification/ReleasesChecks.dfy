/** When an execution goes ahead, said of the tables and the request; and that what becomes active is what was reviewed. */
module ReleasesChecks {
  import opened Common
  import opened ReleasesModel
  import opened ReleasesProofs

  // ---- One execution --------------------------------------------------------------------------

  /** What the request is about: the artifact as it was inspected, or the stored release. */
  ghost predicate IsSubject(c: Catalog, request: Request, content: Option<Preview>, p: Preview) {
    match request.subject
    case Publish(_) => content == Some(p)
    case Rollback(release) =>
      release in c.releases && p == Preview(c.releases[release].manifestHash, c.releases[release].artifactHash, c.releases[release].bytes)
  }

  /** The release that is active for a runner is the one the request expects, or none if it expects none. */
  ghost predicate ExpectsActive(c: Catalog, runner: string, expected: Option<string>) {
    match expected
    case None => runner !in c.active
    case Some(release) => runner in c.active && c.active[runner] == release
  }

  /** An execution is prepared exactly when its operation is new, its subject is there, the manifest is the reviewed one, and the active
      release is the reviewed one. */
  lemma PreparedIff(m: Manifests, c: Catalog, executor: string, operation: string, request: Request, content: Option<Preview>)
    ensures var (d, reply) := Prepare(m, c, executor, operation, request, content);
            && (reply.Ready? <==> operation !in c.operations && exists p :: IsSubject(c, request, content, p) && request.manifestHash == p.manifestHash
                                                                         && ExpectsActive(c, m(p.manifestHash).runner, request.expected))
            && (reply.Ready? ==> executor in d.prepared && d.prepared[executor].operation == operation && d.prepared[executor].request == request
                                 && IsSubject(c, request, content, d.prepared[executor].preview)
                                 && d == c.(prepared := c.prepared[executor := d.prepared[executor]]))
            && (!reply.Ready? ==> d == c)
  {
    var (d, reply) := Prepare(m, c, executor, operation, request, content);
    var preview := Inspected(c, request, content);
    if preview.Some? { assert IsSubject(c, request, content, preview.value); }
  }

  /** A known operation is answered with its receipt to the same request, and refused to any other. */
  lemma KnownIsAnswered(m: Manifests, c: Catalog, executor: string, operation: string, request: Request, content: Option<Preview>)
    requires operation in c.operations
    ensures Prepare(m, c, executor, operation, request, content)
         == (c, if request == c.operations[operation].request then Answered(c.operations[operation].receipt) else Conflict)
  {}

  /** A publication may go ahead with a stored release only if that holds the very same manifest and artifact, and without one only if
      there is room. */
  ghost predicate MayStore(c: Catalog, p: Prepared, existing: Option<string>, room: bool) {
    p.request.subject.Publish? ==>
      match existing
      case None => room
      case Some(id) => id in c.releases && c.releases[id].manifestHash == p.preview.manifestHash && c.releases[id].artifactHash == p.preview.artifactHash
  }

  /** The transaction adds its receipt exactly when the operation is still new, the active release still the expected one, the release may
      be stored, and the files are what they should be. */
  lemma CommittedIff(m: Manifests, c: Catalog, p: Prepared, existing: Option<string>, filesMatch: bool, room: bool)
    requires Found(c.releases, m(p.preview.manifestHash), existing)
    ensures var d := Commit(m, c, p, existing, filesMatch, room).0; var manifest := m(p.preview.manifestHash);
            && (|d.order| > |c.order| <==> p.operation !in c.operations && ExpectsActive(c, manifest.runner, p.request.expected)
                                           && MayStore(c, p, existing, room) && filesMatch)
            && (|d.order| <= |c.order| ==> d == c)
  {}

  /** And then the release is active, and stored under its own name if it was not stored before. */
  lemma CommitLeaves(m: Manifests, c: Catalog, p: Prepared, existing: Option<string>, filesMatch: bool, room: bool)
    requires Found(c.releases, m(p.preview.manifestHash), existing) && |Commit(m, c, p, existing, filesMatch, room).0.order| > |c.order|
    ensures var d := Commit(m, c, p, existing, filesMatch, room).0; var manifest := m(p.preview.manifestHash);
            && d.active == c.active[manifest.runner := manifest.release] && d.order == c.order + [p.operation] && d.prepared == c.prepared
            && d.operations == c.operations[p.operation := Stored(p.request, Receipt(p.operation, manifest.release, manifest.runner, p.request.expected))]
            && (if p.request.subject.Publish? && existing.None? then
                  d.releases == c.releases[manifest.release := Row(manifest.release, manifest.runner, manifest.version, p.preview.manifestHash,
                                                                   p.preview.artifactHash, p.preview.bytes)]
                else d.releases == c.releases)
  {}

  // ---- What was reviewed is what becomes active -----------------------------------------------

  ghost predicate PreparedReviewed(c: Catalog) {
    forall e :: e in c.prepared ==> c.prepared[e].request.manifestHash == c.prepared[e].preview.manifestHash
  }

  /** Each receipt is of a stored release whose manifest is the one in the request, and of the very release a rollback named. */
  ghost predicate ReceiptsReviewed(c: Catalog) {
    forall op :: op in c.operations ==>
      var stored := c.operations[op];
      && stored.receipt.release in c.releases && c.releases[stored.receipt.release].manifestHash == stored.request.manifestHash
      && stored.receipt.runner == c.releases[stored.receipt.release].runner && stored.receipt.previous == stored.request.expected
      && (stored.request.subject.Rollback? ==> stored.receipt.release == stored.request.subject.release)
  }

  lemma CommitIsReviewed(m: Manifests, c: Catalog, p: Prepared, existing: Option<string>, filesMatch: bool, room: bool)
    requires ReleasesInv(m, c.releases) && ReceiptsReviewed(c) && Found(c.releases, m(p.preview.manifestHash), existing)
    requires p.request.manifestHash == p.preview.manifestHash
    requires p.request.subject.Rollback? ==>
               p.request.subject.release in c.releases && c.releases[p.request.subject.release].manifestHash == p.preview.manifestHash
    ensures ReceiptsReviewed(Commit(m, c, p, existing, filesMatch, room).0)
  {
    hide Commit; hide Matches;
    var d := Commit(m, c, p, existing, filesMatch, room).0;
    CommittedIff(m, c, p, existing, filesMatch, room);
    if |d.order| > |c.order| {
      CommitLeaves(m, c, p, existing, filesMatch, room);
      CommitKeepsStored(m, c, p, existing, filesMatch, room);
      CommittedIsStored(m, c, p, existing, room);
    }
  }

  /** The manifest's own release is stored, with this manifest, before the commit or by it. */
  lemma CommittedIsStored(m: Manifests, c: Catalog, p: Prepared, existing: Option<string>, room: bool)
    requires ReleasesInv(m, c.releases) && Found(c.releases, m(p.preview.manifestHash), existing) && MayStore(c, p, existing, room)
    requires p.request.subject.Rollback? ==>
               p.request.subject.release in c.releases && c.releases[p.request.subject.release].manifestHash == p.preview.manifestHash
    ensures var manifest := m(p.preview.manifestHash);
            !(p.request.subject.Publish? && existing.None?) ==>
              && manifest.release in c.releases && c.releases[manifest.release].manifestHash == p.preview.manifestHash
              && c.releases[manifest.release].runner == manifest.runner
              && (p.request.subject.Rollback? ==> manifest.release == p.request.subject.release)
  {}

  lemma StepIsReviewed(m: Manifests, c: Catalog, step: Step)
    requires Inv(m, c) && Enabled(m, c, step) && PreparedReviewed(c) && ReceiptsReviewed(c)
    ensures PreparedReviewed(Next(m, c, step).0) && ReceiptsReviewed(Next(m, c, step).0)
  {
    hide Prepare; hide Commit; hide Found; hide ReleasesInv; hide ActiveInv; hide ChainInv; hide OrderInv;
    match step
    case Preparing(executor, operation, request, content) => PreparingIsReviewed(m, c, executor, operation, request, content);
    case Committing(executor, existing, filesMatch, room) =>
      var p := c.prepared[executor];
      CommitIsReviewed(m, c, p, existing, filesMatch, room);
      CommitIs(m, c, p, existing, filesMatch, room);
    case Crash(_) =>
  }

  lemma PreparingIsReviewed(m: Manifests, c: Catalog, executor: string, operation: string, request: Request, content: Option<Preview>)
    requires PreparedReviewed(c) && ReceiptsReviewed(c)
    ensures var d := Prepare(m, c, executor, operation, request, content).0; PreparedReviewed(d) && ReceiptsReviewed(d)
  {}

  lemma {:induction false} RunIsReviewed(m: Manifests, states: seq<Catalog>, steps: seq<Step>, i: nat)
    requires IsRun(m, states, steps) && i < |states|
    ensures PreparedReviewed(states[i]) && ReceiptsReviewed(states[i])
  {
    hide Inv; hide Enabled; hide Next; hide PreparedReviewed; hide ReceiptsReviewed;
    if i == 0 {
      NothingReviewed();
    } else {
      RunIsReviewed(m, states, steps, i - 1);
      RunKeeps(m, states, steps, i - 1);
      StepIsReviewed(m, states[i - 1], steps[i - 1]);
    }
  }

  lemma NothingReviewed()
    ensures PreparedReviewed(EMPTY) && ReceiptsReviewed(EMPTY)
  {}

  /** In every run: each committed operation made active a stored release with exactly the manifest that its request had reviewed, and,
      for a rollback, exactly the release that it named; and its receipt names the release that the request expected to replace. */
  lemma ReviewedIsActive(m: Manifests, states: seq<Catalog>, steps: seq<Step>, i: nat)
    requires IsRun(m, states, steps) && i < |states|
    ensures ReceiptsReviewed(states[i])
  {
    hide IsRun; hide ReceiptsReviewed;
    RunIsReviewed(m, states, steps, i);
  }
}
