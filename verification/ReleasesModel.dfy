/** Model publication as values: the release tables, and the two phases of an execution that others may run between. */
module ReleasesModel {
  import opened Common

  /** What a manifest says of its release; hashing is injective, so the hash decides it. */
  datatype Manifest = Manifest(release: string, runner: string, version: string)
  type Manifests = string -> Manifest

  datatype Row = Row(release: string, runner: string, version: string, manifestHash: string, artifactHash: string, bytes: nat)

  /** What is published (an uploaded artifact) or returned to (a stored release). */
  datatype Subject = Publish(artifact: string) | Rollback(release: string)
  datatype Request = Request(subject: Subject, manifestHash: string, expected: Option<string>, actor: string)

  /** The read-only inspection of an artifact or release. */
  datatype Preview = Preview(manifestHash: string, artifactHash: string, bytes: nat)

  datatype Receipt = Receipt(operation: string, release: string, runner: string, previous: Option<string>)
  datatype Stored = Stored(request: Request, receipt: Receipt)

  /** An execution between its preparation and its transaction. */
  datatype Prepared = Prepared(operation: string, request: Request, preview: Preview)

  /** order lists the operations as they were committed; nothing reads it. */
  datatype Catalog = Catalog(releases: map<string, Row>, active: map<string, string>, operations: map<string, Stored>, order: seq<string>,
                             prepared: map<string, Prepared>)

  datatype Reply = Answered(receipt: Receipt) | Conflict | Rejected | Ready

  const EMPTY := Catalog(map[], map[], map[], [], map[])

  function ActiveOf(c: Catalog, runner: string): Option<string> { if runner in c.active then Some(c.active[runner]) else None }

  function Prior(c: Catalog, operation: string, request: Request): Option<Reply> {
    if operation !in c.operations then None
    else if c.operations[operation].request != request then Some(Conflict)
    else Some(Answered(c.operations[operation].receipt))
  }

  /** content is what the artifact was found to hold, None when its inspection failed. */
  function Inspected(c: Catalog, request: Request, content: Option<Preview>): Option<Preview> {
    match request.subject
    case Publish(_) => content
    case Rollback(release) =>
      if release !in c.releases then None
      else Some(Preview(c.releases[release].manifestHash, c.releases[release].artifactHash, c.releases[release].bytes))
  }

  /** Before the transaction: replays are answered, and the request must be exactly what was reviewed. */
  function Prepare(m: Manifests, c: Catalog, executor: string, operation: string, request: Request, content: Option<Preview>): (Catalog, Reply) {
    var prior := Prior(c, operation, request);
    if prior.Some? then (c, prior.value)
    else
      var preview := Inspected(c, request, content);
      if preview.None? then (c, Rejected)
      else if request.manifestHash != preview.value.manifestHash then (c, Conflict)
      else if request.expected != ActiveOf(c, m(preview.value.manifestHash).runner) then (c, Conflict)
      else (c.(prepared := c.prepared[executor := Prepared(operation, request, preview.value)]), Ready)
  }

  predicate Matches(row: Row, manifest: Manifest) {
    row.release == manifest.release || (row.runner == manifest.runner && row.version == manifest.version)
  }

  /** existing is the row that the lookup returned: any one of those that match, if there is one. */
  predicate Found(releases: map<string, Row>, manifest: Manifest, existing: Option<string>) {
    if existing.Some? then existing.value in releases && Matches(releases[existing.value], manifest)
    else forall id :: id in releases ==> !Matches(releases[id], manifest)
  }

  /** The transaction. filesMatch says whether the stored or extracted files still hash to what they should, room whether the
      limits leave space for one more release. */
  function Commit(m: Manifests, c: Catalog, p: Prepared, existing: Option<string>, filesMatch: bool, room: bool): (Catalog, Reply)
    requires Found(c.releases, m(p.preview.manifestHash), existing)
  {
    var manifest := m(p.preview.manifestHash);
    var prior := Prior(c, p.operation, p.request);
    if prior.Some? then (c, prior.value)
    else if ActiveOf(c, manifest.runner) != p.request.expected then (c, Conflict)
    else if p.request.subject.Publish? && existing.Some?
            && (c.releases[existing.value].manifestHash != p.preview.manifestHash || c.releases[existing.value].artifactHash != p.preview.artifactHash)
      then (c, Conflict)
    else if p.request.subject.Publish? && existing.None? && !room then (c, Rejected)
    else if !filesMatch then (c, Rejected)
    else
      var row := Row(manifest.release, manifest.runner, manifest.version, p.preview.manifestHash, p.preview.artifactHash, p.preview.bytes);
      var receipt := Receipt(p.operation, manifest.release, manifest.runner, p.request.expected);
      (c.(releases := if p.request.subject.Publish? && existing.None? then c.releases[manifest.release := row] else c.releases,
          active := c.active[manifest.runner := manifest.release],
          operations := c.operations[p.operation := Stored(p.request, receipt)],
          order := c.order + [p.operation]),
       Answered(receipt))
  }

  datatype Step =
    | Preparing(executor: string, operation: string, request: Request, content: Option<Preview>)
    | Committing(executor: string, existing: Option<string>, filesMatch: bool, room: bool)
    | Crash(executor: string)

  predicate Enabled(m: Manifests, c: Catalog, step: Step) {
    match step
    case Preparing(_, _, _, _) => true
    case Committing(executor, existing, _, _) =>
      executor in c.prepared && Found(c.releases, m(c.prepared[executor].preview.manifestHash), existing)
    case Crash(_) => true
  }

  function Next(m: Manifests, c: Catalog, step: Step): (Catalog, Reply)
    requires Enabled(m, c, step)
  {
    match step
    case Preparing(executor, operation, request, content) => Prepare(m, c, executor, operation, request, content)
    case Committing(executor, existing, filesMatch, room) =>
      var (d, reply) := Commit(m, c, c.prepared[executor], existing, filesMatch, room);
      (d.(prepared := d.prepared - {executor}), reply)
    case Crash(executor) => (c.(prepared := c.prepared - {executor}), Rejected)
  }
}
