/** The release store over its tables. */
module Releases {
  import opened Common
  import M = ReleasesModel
  import opened ReleasesProofs

  class ModelReleaseStore {
    const manifests: M.Manifests
    var releases: map<string, M.Row>
    var active: map<string, string>
    var operations: map<string, M.Stored>
    var prepared: map<string, M.Prepared>
    ghost var order: seq<string>

    ghost function View(): M.Catalog
      reads this
    {
      M.Catalog(releases, active, operations, order, prepared)
    }

    ghost predicate Valid()
      reads this
    {
      Inv(manifests, View())
    }

    constructor (manifests: M.Manifests)
      ensures Valid() && View() == M.EMPTY && this.manifests == manifests
    {
      this.manifests, releases, active, operations, prepared, order := manifests, map[], map[], map[], map[], [];
      new;
      EmptyHolds(manifests);
    }

    method Lookup(operation: string, request: M.Request) returns (reply: Option<M.Reply>)
      ensures reply == M.Prior(View(), operation, request)
    {
      if operation !in operations { return None; }
      if operations[operation].request != request { return Some(M.Conflict); }
      return Some(M.Answered(operations[operation].receipt));
    }

    /** The first phase; another executor may commit between it and the second. */
    method Prepare(executor: string, operation: string, request: M.Request, content: Option<M.Preview>) returns (reply: M.Reply)
      requires Valid()
      modifies `prepared
      ensures Valid() && (View(), reply) == M.Prepare(manifests, old(View()), executor, operation, request, content)
    {
      hide Inv;
      PreparingKeeps(manifests, View(), executor, operation, request, content);
      var prior := Lookup(operation, request);
      if prior.Some? { return prior.value; }
      var preview;
      match request.subject {
        case Publish(_) => preview := content;
        case Rollback(release) =>
          if release !in releases { return M.Rejected; }
          preview := Some(M.Preview(releases[release].manifestHash, releases[release].artifactHash, releases[release].bytes));
      }
      if preview.None? { return M.Rejected; }
      if request.manifestHash != preview.value.manifestHash { return M.Conflict; }
      var runner := manifests(preview.value.manifestHash).runner;
      if request.expected != (if runner in active then Some(active[runner]) else None) { return M.Conflict; }
      prepared := prepared[executor := M.Prepared(operation, request, preview.value)];
      return M.Ready;
    }

    /** The second phase, in one transaction that compares the active pointer again before it moves it. */
    method Execute(executor: string, existing: Option<string>, filesMatch: bool, room: bool) returns (reply: M.Reply)
      requires Valid() && M.Enabled(manifests, View(), M.Committing(executor, existing, filesMatch, room))
      modifies `releases, `active, `operations, `order, `prepared
      ensures Valid() && (View(), reply) == M.Next(manifests, old(View()), M.Committing(executor, existing, filesMatch, room))
      ensures old(prepared)[executor].operation in old(operations) ==> order == old(order)
    {
      hide Inv;
      StepKeeps(manifests, View(), M.Committing(executor, existing, filesMatch, room));
      var p := prepared[executor];
      prepared := prepared - {executor};
      var prior := Lookup(p.operation, p.request);
      if prior.Some? { return prior.value; }
      var manifest := manifests(p.preview.manifestHash);
      if (if manifest.runner in active then Some(active[manifest.runner]) else None) != p.request.expected { return M.Conflict; }
      if p.request.subject.Publish? {
        if existing.Some? {
          var row := releases[existing.value];
          if row.manifestHash != p.preview.manifestHash || row.artifactHash != p.preview.artifactHash { return M.Conflict; }
        } else if !room {
          return M.Rejected;
        }
      }
      if !filesMatch { return M.Rejected; }
      if p.request.subject.Publish? && existing.None? {
        releases := releases[manifest.release := M.Row(manifest.release, manifest.runner, manifest.version, p.preview.manifestHash,
                                                       p.preview.artifactHash, p.preview.bytes)];
      }
      active := active[manifest.runner := manifest.release];
      var receipt := M.Receipt(p.operation, manifest.release, manifest.runner, p.request.expected);
      operations, order := operations[p.operation := M.Stored(p.request, receipt)], order + [p.operation];
      return M.Answered(receipt);
    }
  }
}
