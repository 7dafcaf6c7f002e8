/** Spec drafts and the public spec state of a project, as seen by one request at a time.

    `World` holds the committed rows of `projects` and `spec_drafts` (with their
    `spec_draft_files`) and the regular files under each project's `specs/` directory.
    `Serial` is what one create, patch, delete or publish request does when it runs alone;
    SpecDraftTransactions.dfy shows that interleaved transactions do nothing else. */
module SpecDrafts {
  import opened Options

  type ProjectId = nat
  type DraftId = nat
  type UserId = nat

  datatype Status = Draft | Published

  datatype DraftRow = DraftRow(
    project: ProjectId,
    owner: UserId,
    title: string,
    conversation: seq<string>,
    baseVersion: int,
    status: Status,
    files: map<string, string>)

  /** A directory entry: a regular file, or something `isFile()` rejects, which is a symbolic link to a file
      elsewhere, through which a write succeeds, or a directory, onto which it fails. */
  datatype Entry = File(content: string) | Directory | Link

  type Dir = map<string, Entry>

  datatype SpecFile = SpecFile(name: string, content: string)

  /** `broken` is bookkeeping: the projects whose last disk write was cut short. */
  datatype World = World(
    versions: map<ProjectId, nat>,
    drafts: map<DraftId, DraftRow>,
    disk: map<ProjectId, Dir>,
    broken: set<ProjectId>)

  datatype Op =
    | Create(id: DraftId, project: ProjectId, owner: UserId, title: string, conversation: seq<string>,
             baseVersion: int, bundle: seq<SpecFile>)
    | Patch(draft: DraftId, project: ProjectId, owner: UserId, newTitle: Option<string>,
            newConversation: Option<seq<string>>, newBundle: Option<seq<SpecFile>>)
    | Delete(draft: DraftId, project: ProjectId, owner: UserId)
    | Publish(draft: DraftId, project: ProjectId, owner: UserId)
      // a publish whose disk write threw: the transaction rolled back, `leftover` is what stayed on disk
    | PublishBroken(draft: DraftId, project: ProjectId, owner: UserId, leftover: Dir)

  datatype Outcome =
    | Ok
    | NotFound
    | PublishedImmutable
    | Conflict(currentVersion: nat, currentFiles: map<string, string>)
    | NewVersion(version: nat)
    | Threw

  // ---- file bundles -------------------------------------------------------------------------

  predicate UniqueNames(bundle: seq<SpecFile>)
  {
    forall i, j :: 0 <= i < j < |bundle| ==> bundle[i].name != bundle[j].name
  }

  /** The rows of `spec_draft_files` after the first `n` inserts; a later entry wins. */
  function Rows(bundle: seq<SpecFile>, n: nat): map<string, string>
    requires n <= |bundle|
  {
    if n == 0 then map[] else Rows(bundle, n - 1)[bundle[n - 1].name := bundle[n - 1].content]
  }

  function AsMap(bundle: seq<SpecFile>): map<string, string>
  {
    Rows(bundle, |bundle|)
  }

  /** `files` holds exactly the files of the bundle, each with its own content. */
  ghost predicate Stores(files: map<string, string>, bundle: seq<SpecFile>)
  {
    && (forall n :: n in files ==> exists i :: 0 <= i < |bundle| && bundle[i].name == n)
    && (forall i :: 0 <= i < |bundle| ==> bundle[i].name in files && files[bundle[i].name] == bundle[i].content)
  }

  lemma {:induction false} RowsStore(bundle: seq<SpecFile>, n: nat)
    requires n <= |bundle| && forall i, j :: 0 <= i < j < n ==> bundle[i].name != bundle[j].name
    ensures forall name :: name in Rows(bundle, n) ==> exists i :: 0 <= i < n && bundle[i].name == name
    ensures forall i :: 0 <= i < n ==>
              bundle[i].name in Rows(bundle, n) && Rows(bundle, n)[bundle[i].name] == bundle[i].content
  {
    if n > 0 {
      RowsStore(bundle, n - 1);
    }
  }

  lemma AsMapStores(bundle: seq<SpecFile>)
    requires forall i, j :: 0 <= i < j < |bundle| ==> bundle[i].name != bundle[j].name
    ensures Stores(AsMap(bundle), bundle)
  {
    RowsStore(bundle, |bundle|);
    hide Rows;
  }

  /** `assertFlatSpecFileName`; on POSIX `path.isAbsolute` is covered by the '/' test. */
  predicate FlatName(name: string)
  {
    name != "" && name != "." && name != ".." && '/' !in name && '\\' !in name && '\0' !in name
  }

  predicate AllFlat(names: set<string>)
  {
    forall n :: n in names ==> FlatName(n)
  }

  // ---- directories --------------------------------------------------------------------------

  function Regular(dir: Dir): map<string, string>
  {
    map n | n in dir && dir[n].File? :: dir[n].content
  }

  /** What neither a removal nor a write changes. */
  function Others(dir: Dir): map<string, Entry>
  {
    map n | n in dir && !dir[n].File? :: dir[n]
  }

  function Directories(dir: Dir): set<string>
  {
    set n | n in dir && dir[n].Directory?
  }

  function Links(dir: Dir): set<string>
  {
    set n | n in dir && dir[n].Link?
  }

  /** `fs.writeFile` onto a name that is no directory: a link is followed and stays a link. */
  function Written(dir: Dir, name: string, content: string): Dir
  {
    if name in dir && dir[name].Link? then dir else dir[name := File(content)]
  }

  /** The files of a bundle that end up as regular files of the directory. */
  function Plain(files: map<string, string>, dir: Dir): map<string, string>
  {
    map n | n in files && n !in Others(dir) :: files[n]
  }

  /** What `specs/` must look like after the file set was replaced by `files`. */
  function Replaced(dir: Dir, files: map<string, string>): (r: Dir)
    ensures Regular(r) == Plain(files, dir) && Others(r) == Others(dir)
  {
    map n | n in Others(dir).Keys + files.Keys :: if n in Others(dir) then Others(dir)[n] else File(files[n])
  }

  /** All of a bundle become regular files exactly if none of its names is a link. */
  lemma PlainIsAllIff(files: map<string, string>, dir: Dir)
    requires files.Keys !! Directories(dir)
    ensures Plain(files, dir) == files <==> files.Keys !! Links(dir)
  {
    if files.Keys !! Links(dir) {
      assert forall n :: n in files ==> n !in Others(dir);
    } else {
      var n :| n in files && n in Links(dir);
      assert n !in Plain(files, dir);
    }
  }

  // ---- one request running alone ------------------------------------------------------------

  predicate Matches(drafts: map<DraftId, DraftRow>, draft: DraftId, project: ProjectId, owner: UserId)
  {
    draft in drafts && drafts[draft].project == project && drafts[draft].owner == owner
  }

  /** The WHERE clause shared by patch, delete and publish. */
  predicate Editable(drafts: map<DraftId, DraftRow>, draft: DraftId, project: ProjectId, owner: UserId)
  {
    Matches(drafts, draft, project, owner) && drafts[draft].status == Draft
  }

  function Patched(row: DraftRow, op: Op): DraftRow
    requires op.Patch?
  {
    row.(title := if op.newTitle.Some? then op.newTitle.value else row.title,
         conversation := if op.newConversation.Some? then op.newConversation.value else row.conversation,
         files := if op.newBundle.Some? then AsMap(op.newBundle.value) else row.files)
  }

  /** The answer of the query that follows a DELETE which removed nothing. */
  function DeleteMissAnswer(drafts: map<DraftId, DraftRow>, op: Op): Outcome
    requires op.Delete?
  {
    if Matches(drafts, op.draft, op.project, op.owner) && drafts[op.draft].status == Published
    then PublishedImmutable else NotFound
  }

  function Serial(w: World, op: Op): (World, Outcome)
  {
    match op
    case Create(id, project, owner, title, conversation, baseVersion, bundle) =>
      if id in w.drafts || project !in w.versions || !UniqueNames(bundle) then (w, Threw)
      else
        var row := DraftRow(project, owner, title, conversation, baseVersion, Draft, AsMap(bundle));
        (w.(drafts := w.drafts[id := row]), Ok)
    case Patch(draft, project, owner, _, _, newBundle) =>
      if !Editable(w.drafts, draft, project, owner) then (w, NotFound)
      else if newBundle.Some? && !UniqueNames(newBundle.value) then (w, Threw)
      else (w.(drafts := w.drafts[draft := Patched(w.drafts[draft], op)]), Ok)
    case Delete(draft, project, owner) =>
      if Editable(w.drafts, draft, project, owner) then (w.(drafts := w.drafts - {draft}), Ok)
      else (w, DeleteMissAnswer(w.drafts, op))
    case Publish(draft, project, owner) =>
      if project !in w.versions || project !in w.disk || !Editable(w.drafts, draft, project, owner) then (w, NotFound)
      else
        var row := w.drafts[draft];
        if row.baseVersion != w.versions[project] then
          (w, Conflict(w.versions[project], Regular(w.disk[project])))
        else if !AllFlat(row.files.Keys) || !(row.files.Keys !! Directories(w.disk[project])) then (w, Threw)
        else
          (World(w.versions[project := w.versions[project] + 1],
                 w.drafts[draft := row.(status := Published)],
                 w.disk[project := Replaced(w.disk[project], row.files)],
                 w.broken - {project}),
           NewVersion(w.versions[project] + 1))
    case PublishBroken(_, project, _, leftover) =>
      if project !in w.disk then (w, Threw)
      else (w.(disk := w.disk[project := leftover], broken := w.broken + {project}), Threw)
  }

  // ---- what every sequence of requests keeps -------------------------------------------------

  predicate PublishedAt(w: World, p: ProjectId, k: int, d: DraftId)
  {
    d in w.drafts && w.drafts[d].status == Published && w.drafts[d].project == p && w.drafts[d].baseVersion == k
  }

  ghost predicate HasPublished(w: World, p: ProjectId, k: int)
  {
    exists d :: PublishedAt(w, p, k, d)
  }

  /** The public version counts the published drafts: their base versions are 0..version-1, each once. */
  ghost predicate VersionsCountPublished(w: World)
  {
    && (forall p, k: int :: p in w.versions && 0 <= k < w.versions[p] ==> HasPublished(w, p, k))
    && (forall p, k: int, d :: PublishedAt(w, p, k, d) ==> p in w.versions && 0 <= k < w.versions[p])
    && (forall p, k: int, d, e :: PublishedAt(w, p, k, d) && PublishedAt(w, p, k, e) ==> d == e)
  }

  /** Unless the last write was cut short, the regular files are those of the newest published draft, but for
      names that are links. */
  ghost predicate DiskIsNewest(w: World)
  {
    && w.disk.Keys == w.versions.Keys
    && (forall p, k: int, d ::
          (p in w.versions && p !in w.broken && k + 1 == w.versions[p] && PublishedAt(w, p, k, d))
          ==> Holds(w.disk[p], w.drafts[d].files))
  }

  predicate Holds(dir: Dir, files: map<string, string>)
  {
    Regular(dir) == Plain(files, dir) && files.Keys !! Directories(dir)
  }

  ghost predicate WorldInv(w: World)
  {
    VersionsCountPublished(w) && DiskIsNewest(w)
  }

  lemma InitialWorld(disk: map<ProjectId, Dir>)
    ensures WorldInv(World(map p | p in disk :: 0, map[], disk, {}))
  {
  }

  lemma SerialPublishKeepsInv(w: World, op: Op)
    requires WorldInv(w) && op.Publish?
    ensures WorldInv(Serial(w, op).0)
  {
    var (w', out) := Serial(w, op);
    if out.NewVersion? {
      var v := w.versions[op.project];
      assert PublishedAt(w', op.project, v, op.draft);
      forall p, k: int | p in w'.versions && 0 <= k < w'.versions[p]
        ensures HasPublished(w', p, k)
      {
        if p == op.project && k == v {
        } else {
          assert HasPublished(w, p, k);
          var d :| PublishedAt(w, p, k, d);
          assert PublishedAt(w', p, k, d);
        }
      }
      forall p, k: int, d | PublishedAt(w', p, k, d) && d != op.draft
        ensures PublishedAt(w, p, k, d)
      {
      }
    }
  }

  lemma SerialEditKeepsInv(w: World, op: Op)
    requires WorldInv(w) && !op.Publish?
    ensures WorldInv(Serial(w, op).0)
  {
    var w' := Serial(w, op).0;
    forall p, k: int, d
      ensures PublishedAt(w', p, k, d) <==> PublishedAt(w, p, k, d)
    {
    }
    forall p, k: int | HasPublished(w, p, k)
      ensures HasPublished(w', p, k)
    {
      var d :| PublishedAt(w, p, k, d);
      assert PublishedAt(w', p, k, d);
    }
  }

  lemma SerialKeepsInv(w: World, op: Op)
    requires WorldInv(w)
    ensures WorldInv(Serial(w, op).0)
  {
    if op.Publish? {
      SerialPublishKeepsInv(w, op);
    } else {
      SerialEditKeepsInv(w, op);
    }
  }

  /** A published draft is never changed or removed by any later request. */
  lemma SerialKeepsPublished(w: World, op: Op, d: DraftId)
    requires d in w.drafts && w.drafts[d].status == Published
    ensures d in Serial(w, op).0.drafts && Serial(w, op).0.drafts[d] == w.drafts[d]
  {
  }

  // ---- counting ------------------------------------------------------------------------------

  function PublishedDrafts(w: World, p: ProjectId): set<DraftId>
  {
    set d | d in w.drafts && w.drafts[d].status == Published && w.drafts[d].project == p
  }

  function PublishedBelow(w: World, p: ProjectId, k: nat): set<DraftId>
  {
    set d | d in PublishedDrafts(w, p) && 0 <= w.drafts[d].baseVersion < k
  }

  lemma {:induction false} CountPublishedBelow(w: World, p: ProjectId, k: nat)
    requires WorldInv(w) && p in w.versions && k <= w.versions[p]
    ensures |PublishedBelow(w, p, k)| == k
  {
    if k == 0 {
      assert PublishedBelow(w, p, 0) == {};
    } else {
      CountPublishedBelow(w, p, k - 1);
      var last: int := k - 1;
      assert HasPublished(w, p, last);
      var d :| PublishedAt(w, p, last, d);
      forall e | e in PublishedBelow(w, p, k)
        ensures e in PublishedBelow(w, p, k - 1) + {d}
      {
        if w.drafts[e].baseVersion == k - 1 {
          assert PublishedAt(w, p, last, e);
        }
      }
      assert PublishedBelow(w, p, k) == PublishedBelow(w, p, k - 1) + {d};
    }
  }

  /** The public version of a project is the number of its published drafts. */
  lemma VersionIsPublishedCount(w: World, p: ProjectId)
    requires WorldInv(w) && p in w.versions
    ensures |PublishedDrafts(w, p)| == w.versions[p]
  {
    CountPublishedBelow(w, p, w.versions[p]);
    forall d | d in PublishedDrafts(w, p)
      ensures d in PublishedBelow(w, p, w.versions[p])
    {
      var k: int := w.drafts[d].baseVersion;
      assert PublishedAt(w, p, k, d);
      assert 0 <= k < w.versions[p];
    }
    assert PublishedDrafts(w, p) == PublishedBelow(w, p, w.versions[p]);
  }

  // ---- where a link gets in the way ------------------------------------------------------------

  /** A publish whose only file name is a link in `specs/` succeeds, and shows nothing. */
  lemma LinkHidesSpec(owner: UserId, content: string)
    ensures
      var files := [SpecFile("a", content)];
      var before := World(map[0 := 0], map[], map[0 := map["a" := Link]], {});
      var created := Serial(before, Create(7, 0, owner, "", [], 0, files)).0;
      var (after, answer) := Serial(created, Publish(7, 0, owner));
      && answer == NewVersion(1) && 7 in after.drafts && 0 in after.disk
      && after.drafts[7].files == map["a" := content] && Regular(after.disk[0]) == map[]
  {
    var files := [SpecFile("a", content)];
    assert Rows(files, 0) == map[] && Rows(files, 1) == map["a" := content];
    assert Regular(map["a" := Link]) == map[];
    assert Directories(map["a" := Link]) == {};
  }
}
