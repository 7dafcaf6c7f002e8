/** The draft store and the files under `specs/`, updated in place by one request at a time.

    Every method is tied to `SpecDrafts.Serial`, the function the interleaved transactions refine. */
module DraftStores {
  import opened Options
  import opened SpecDrafts

  lemma AllReplaced(before: Dir, dir: Dir, files: map<string, string>)
    requires Others(dir) == Others(before)
    requires forall n :: n in files ==> n in dir && (dir[n].Link? || dir[n] == File(files[n]))
    requires forall n :: n in dir && dir[n].File? ==> n in files
    ensures files.Keys !! Directories(before) && dir == Replaced(before, files)
  {
    forall n
      ensures n in before && !before[n].File? <==> n in dir && !dir[n].File?
      ensures n in dir && !dir[n].File? ==> before[n] == dir[n]
    {
      assert n in Others(dir) <==> n in Others(before);
      assert n in Others(dir) ==> Others(dir)[n] == Others(before)[n];
    }
    hide Others;
  }

  lemma RemovedKeepsOthers(dir: Dir, name: string)
    requires name in dir && dir[name].File?
    ensures Others(dir - {name}) == Others(dir)
  {
  }

  lemma WrittenKeepsOthers(dir: Dir, name: string, content: string)
    requires name !in Directories(dir)
    ensures Others(Written(dir, name, content)) == Others(dir)
  {
  }

  lemma DirectoriesAreOthers(dir: Dir, before: Dir)
    requires Others(dir) == Others(before)
    ensures Directories(dir) == Directories(before)
  {
    assert forall n :: n in Directories(dir) <==> n in Others(dir) && Others(dir)[n].Directory?;
    assert forall n :: n in Directories(before) <==> n in Others(before) && Others(before)[n].Directory?;
  }

  class DraftStore {
    var versions: map<ProjectId, nat>
    var drafts: map<DraftId, DraftRow>
    var disk: map<ProjectId, Dir>
    ghost var broken: set<ProjectId>

    ghost function Contents(): World
      reads this
    {
      World(versions, drafts, disk, broken)
    }

    ghost predicate Valid()
      reads this
    {
      versions.Keys == disk.Keys && WorldInv(Contents())
    }

    constructor (initialDisk: map<ProjectId, Dir>)
      ensures Valid()
      ensures Contents() == World(map p | p in initialDisk :: 0, map[], initialDisk, {})
    {
      versions := map p | p in initialDisk :: 0;
      drafts := map[];
      disk := initialDisk;
      broken := {};
      new;
      InitialWorld(initialDisk);
    }

    method CreateDraft(id: DraftId, project: ProjectId, owner: UserId, title: string, conversation: seq<string>,
                       baseVersion: int, bundle: seq<SpecFile>) returns (out: Outcome)
      requires Valid()
      modifies this`drafts
      ensures Valid()
      ensures (Contents(), out) ==
              Serial(old(Contents()), Create(id, project, owner, title, conversation, baseVersion, bundle))
      ensures out == Ok ==>
                && id in drafts && Stores(drafts[id].files, bundle)
                && drafts[id].title == title && drafts[id].conversation == conversation
    {
      ghost var op := Create(id, project, owner, title, conversation, baseVersion, bundle);
      SerialKeepsInv(Contents(), op);
      if id in drafts || project !in versions || !UniqueNames(bundle) {
        return Threw;
      }
      AsMapStores(bundle);
      drafts := drafts[id := DraftRow(project, owner, title, conversation, baseVersion, Draft, AsMap(bundle))];
      out := Ok;
    }

    method PatchDraft(draft: DraftId, project: ProjectId, owner: UserId, newTitle: Option<string>,
                      newConversation: Option<seq<string>>, newBundle: Option<seq<SpecFile>>) returns (out: Outcome)
      requires Valid()
      modifies this`drafts
      ensures Valid()
      ensures (Contents(), out) ==
              Serial(old(Contents()), Patch(draft, project, owner, newTitle, newConversation, newBundle))
      ensures out == Ok ==>
                && draft in drafts && draft in old(drafts)
                && drafts[draft].title == (if newTitle.Some? then newTitle.value else old(drafts)[draft].title)
                && drafts[draft].conversation ==
                     (if newConversation.Some? then newConversation.value else old(drafts)[draft].conversation)
                && (newBundle.Some? ==> Stores(drafts[draft].files, newBundle.value))
                && (newBundle.None? ==> drafts[draft].files == old(drafts)[draft].files)
    {
      ghost var op := Patch(draft, project, owner, newTitle, newConversation, newBundle);
      SerialKeepsInv(Contents(), op);
      if !Editable(drafts, draft, project, owner) {
        return NotFound;
      }
      var row := drafts[draft];
      if newTitle.Some? {
        row := row.(title := newTitle.value);
      }
      if newConversation.Some? {
        row := row.(conversation := newConversation.value);
      }
      if newBundle.Some? {
        if !UniqueNames(newBundle.value) {
          return Threw;
        }
        AsMapStores(newBundle.value);
        row := row.(files := AsMap(newBundle.value));
      }
      drafts := drafts[draft := row];
      out := Ok;
    }

    method DeleteDraft(draft: DraftId, project: ProjectId, owner: UserId) returns (out: Outcome)
      requires Valid()
      modifies this`drafts
      ensures Valid()
      ensures (Contents(), out) == Serial(old(Contents()), Delete(draft, project, owner))
    {
      SerialKeepsInv(Contents(), Delete(draft, project, owner));
      if Editable(drafts, draft, project, owner) {
        drafts := drafts - {draft};
        return Ok;
      }
      if Matches(drafts, draft, project, owner) && drafts[draft].status == Published {
        return PublishedImmutable;
      }
      out := NotFound;
    }

    /** Replaces the regular files of a project. `ok` is false when the call threw: before touching
        the disk for a name that is not flat, halfway when a name belongs to a directory. A link is written through. */
    method WritePublicSpecFiles(project: ProjectId, files: map<string, string>) returns (ok: bool)
      requires project in disk
      modifies this`disk
      ensures disk.Keys == old(disk).Keys
      ensures forall p :: p in disk && p != project ==> disk[p] == old(disk)[p]
      ensures ok <==> AllFlat(files.Keys) && files.Keys !! Directories(old(disk)[project])
      ensures ok ==> disk[project] == Replaced(old(disk)[project], files)
      ensures !AllFlat(files.Keys) ==> disk == old(disk)
      ensures Others(disk[project]) == Others(old(disk)[project])
    {
      if !AllFlat(files.Keys) {
        return false;
      }
      hide Others, Regular, Replaced;
      var before := disk[project];
      var listing := before.Keys;
      while listing != {}
        invariant project in disk && disk == old(disk)[project := disk[project]]
        invariant Others(disk[project]) == Others(before) && listing <= before.Keys
        invariant forall n :: n in disk[project] ==> n in before && disk[project][n] == before[n]
        invariant forall n :: n in listing ==> n in disk[project]
        invariant forall n :: n in disk[project] && disk[project][n].File? ==> n in listing || n in files
        decreases listing
      {
        var name :| name in listing;
        listing := listing - {name};
        if before[name].File? && name !in files {
          RemovedKeepsOthers(disk[project], name);
          disk := disk[project := disk[project] - {name}];
        }
      }
      var todo := files.Keys;
      while todo != {}
        invariant project in disk && disk == old(disk)[project := disk[project]]
        invariant Others(disk[project]) == Others(before) && todo <= files.Keys
        invariant files.Keys - todo !! Directories(before)
        invariant forall n :: n in files && n !in todo ==>
                    n in disk[project] && (disk[project][n].Link? || disk[project][n] == File(files[n]))
        invariant forall n :: n in disk[project] && disk[project][n].File? ==> n in files
        decreases todo
      {
        var name :| name in todo;
        DirectoriesAreOthers(disk[project], before);
        if name in disk[project] && disk[project][name].Directory? {
          assert name in Directories(before);
          return false;
        }
        todo := todo - {name};
        WrittenKeepsOthers(disk[project], name, files[name]);
        if !(name in disk[project] && disk[project][name].Link?) {
          disk := disk[project := disk[project][name := File(files[name])]];
        }
      }
      AllReplaced(before, disk[project], files);
      ok := true;
    }

    /** The regular files of a project, each once. */
    method ReadPublicSpecFiles(project: ProjectId, only: Option<string>) returns (results: seq<SpecFile>)
      requires project in disk
      ensures UniqueNames(results)
      ensures forall f :: f in results <==>
                f.name in Regular(disk[project]) && f.content == Regular(disk[project])[f.name]
                && (only.Some? && only.value != "" ==> f.name == only.value)
    {
      var dir := disk[project];
      var listing := dir.Keys;
      results := [];
      while listing != {}
        invariant UniqueNames(results) && listing <= dir.Keys
        invariant forall f :: f in results <==>
                    f.name in dir.Keys - listing && f.name in Regular(dir) && f.content == Regular(dir)[f.name]
                    && (only.Some? && only.value != "" ==> f.name == only.value)
        decreases listing
      {
        var name :| name in listing;
        if dir[name].File? && (only.Some? && only.value != "" ==> name == only.value) {
          assert forall i :: 0 <= i < |results| ==> results[i] in results;
          results := results + [SpecFile(name, dir[name].content)];
        }
        listing := listing - {name};
      }
    }

    method PublishDraft(draft: DraftId, project: ProjectId, owner: UserId) returns (out: Outcome)
      requires Valid()
      modifies this
      ensures Valid()
      ensures
        || (Contents(), out) == Serial(old(Contents()), Publish(draft, project, owner))
        || (draft in old(drafts) && project in old(disk) && project in disk
            && !(old(drafts)[draft].files.Keys !! Directories(old(disk)[project]))
            && (Contents(), out) == Serial(old(Contents()), PublishBroken(draft, project, owner, disk[project])))
    {
      ghost var before := Contents();
      hide Regular, Replaced, Directories, AsMap, UniqueNames, Patched, DeleteMissAnswer, WorldInv;
      SerialKeepsInv(before, Publish(draft, project, owner));
      if project !in versions {
        return NotFound;
      }
      var version := versions[project];
      if !Editable(drafts, draft, project, owner) {
        return NotFound;
      }
      var row := drafts[draft];
      if row.baseVersion != version {
        return Conflict(version, Regular(disk[project]));
      }
      var written := WritePublicSpecFiles(project, row.files);
      if !written {
        if !AllFlat(row.files.Keys) {
          return Threw;
        }
        broken := broken + {project};
        assert disk == before.disk[project := disk[project]];
        SerialKeepsInv(before, PublishBroken(draft, project, owner, disk[project]));
        return Threw;
      }
      assert disk == before.disk[project := disk[project]];
      versions := versions[project := version + 1];
      drafts := drafts[draft := row.(status := Published)];
      broken := broken - {project};
      out := NewVersion(version + 1);
    }
  }
}
