/** What each request on a draft leaves and answers, field by field, and what of it becomes public. */
module SpecDraftAnswers {
  import opened Options
  import opened SpecDrafts
  import opened SpecDraftTransactions

  // ---- one request ------------------------------------------------------------------------------

  /** The requester's own draft in this project, not published yet. */
  predicate Owned(w: World, draft: DraftId, project: ProjectId, owner: UserId, status: Status)
  {
    && draft in w.drafts && w.drafts[draft].project == project
    && w.drafts[draft].owner == owner && w.drafts[draft].status == status
  }

  predicate RepeatsName(bundle: seq<SpecFile>)
  {
    exists i, j :: 0 <= i < j < |bundle| && bundle[i].name == bundle[j].name
  }

  /** Nothing but the row of one draft is different. */
  ghost predicate OnlyDraftChanged(w: World, w': World, draft: DraftId)
  {
    && w'.versions == w.versions && w'.disk == w.disk && w'.broken == w.broken
    && forall d :: d != draft ==> (d in w'.drafts <==> d in w.drafts) && (d in w.drafts ==> w'.drafts[d] == w.drafts[d])
  }

  /** A create is refused for a taken id, an unknown project or a repeated file name; otherwise there is a draft
      with just what was given. */
  lemma CreateMeans(w: World, op: Op)
    requires op.Create?
    ensures
      var (w', out) := Serial(w, op);
      && (out == Ok <==> op.id !in w.drafts && op.project in w.versions && !RepeatsName(op.bundle))
      && (out != Ok ==> out == Threw && w' == w)
      && (out == Ok ==>
            && OnlyDraftChanged(w, w', op.id) && Owned(w', op.id, op.project, op.owner, Draft)
            && w'.drafts[op.id].title == op.title && w'.drafts[op.id].conversation == op.conversation
            && w'.drafts[op.id].baseVersion == op.baseVersion && Stores(w'.drafts[op.id].files, op.bundle))
  {
    if !RepeatsName(op.bundle) {
      AsMapStores(op.bundle);
    }
  }

  /** A patch finds only the requester's own unpublished draft; it replaces what was given and keeps the rest. */
  lemma PatchMeans(w: World, op: Op)
    requires op.Patch?
    ensures
      var (w', out) := Serial(w, op);
      var repeats := op.newBundle.Some? && RepeatsName(op.newBundle.value);
      && (out == NotFound <==> !Owned(w, op.draft, op.project, op.owner, Draft))
      && (out == Ok <==> Owned(w, op.draft, op.project, op.owner, Draft) && !repeats)
      && (out != Ok ==> w' == w && (out == NotFound || out == Threw))
      && (out == Ok ==>
            && OnlyDraftChanged(w, w', op.draft) && Owned(w', op.draft, op.project, op.owner, Draft)
            && w'.drafts[op.draft].baseVersion == w.drafts[op.draft].baseVersion
            && w'.drafts[op.draft].title == (match op.newTitle case Some(t) => t case None => w.drafts[op.draft].title)
            && w'.drafts[op.draft].conversation ==
                 (match op.newConversation case Some(c) => c case None => w.drafts[op.draft].conversation)
            && (op.newBundle.Some? ==> Stores(w'.drafts[op.draft].files, op.newBundle.value))
            && (op.newBundle.None? ==> w'.drafts[op.draft].files == w.drafts[op.draft].files))
  {
    if op.newBundle.Some? && !RepeatsName(op.newBundle.value) {
      AsMapStores(op.newBundle.value);
    }
  }

  /** A delete removes the requester's own unpublished draft; a published one of theirs it calls immutable, and
      every other draft not found. */
  lemma DeleteMeans(w: World, op: Op)
    requires op.Delete?
    ensures
      var (w', out) := Serial(w, op);
      && (out == Ok <==> Owned(w, op.draft, op.project, op.owner, Draft))
      && (out == Ok ==> OnlyDraftChanged(w, w', op.draft) && op.draft !in w'.drafts)
      && (out != Ok ==> w' == w)
      && (out == PublishedImmutable <==> Owned(w, op.draft, op.project, op.owner, Published))
      && (out == Ok || out == PublishedImmutable || out == NotFound)
  {
  }

  /** A name `writePublicSpecFiles` refuses. */
  predicate BadName(name: string)
  {
    || name == "" || name == "." || name == ".."
    || exists i :: 0 <= i < |name| && (name[i] == '/' || name[i] == '\\' || name[i] == '\0')
  }

  /** The bundle takes the place of the regular files; links are written through, and directories stay. */
  ghost predicate Shows(dir: Dir, before: Dir, files: map<string, string>)
  {
    && (forall n :: n in dir <==> n in files || (n in before && !before[n].File?))
    && (forall n :: n in before && !before[n].File? ==> n in dir && dir[n] == before[n])
    && (forall n :: n in files && !(n in before && before[n].Link?) ==> n in dir && dir[n] == File(files[n]))
  }

  /** A publish needs the project and the requester's own unpublished draft. If the draft is not based on the
      public version the answer is that version with the regular files; if a file name is bad or belongs to a
      directory it throws; otherwise the draft becomes the next version, and its files the public ones. */
  lemma PublishMeans(w: World, op: Op)
    requires op.Publish? && w.versions.Keys == w.disk.Keys
    ensures
      var (w', out) := Serial(w, op);
      var found := op.project in w.versions && Owned(w, op.draft, op.project, op.owner, Draft);
      && (out == NotFound <==> !found)
      && (out.Conflict? <==> found && w.drafts[op.draft].baseVersion != w.versions[op.project])
      && (out.NewVersion? <==>
            && found && w.drafts[op.draft].baseVersion == w.versions[op.project]
            && forall n :: n in w.drafts[op.draft].files ==>
                 !BadName(n) && !(n in w.disk[op.project] && w.disk[op.project][n].Directory?))
      && (!out.NewVersion? ==> w' == w && (out == NotFound || out.Conflict? || out == Threw))
      && (out.Conflict? ==>
            && out.currentVersion == w.versions[op.project]
            && forall n :: (n in out.currentFiles <==> n in w.disk[op.project] && w.disk[op.project][n].File?)
                 && (n in out.currentFiles ==> w.disk[op.project][n] == File(out.currentFiles[n])))
      && (out.NewVersion? ==>
            && out.version == w.versions[op.project] + 1 && w'.versions == w.versions[op.project := out.version]
            && w'.drafts == w.drafts[op.draft := w.drafts[op.draft].(status := Published)]
            && w'.disk.Keys == w.disk.Keys
            && (forall p :: p in w.disk && p != op.project ==> w'.disk[p] == w.disk[p])
            && Shows(w'.disk[op.project], w.disk[op.project], w.drafts[op.draft].files))
  {
  }

  // ---- from the request to the public files -----------------------------------------------------

  /** This request stored a bundle for the draft. */
  predicate StoresFor(e: LogEntry, d: DraftId)
  {
    e.outcome == Ok && ((e.op.Create? && e.op.id == d) || (e.op.Patch? && e.op.draft == d && e.op.newBundle.Some?))
  }

  function BundleOf(e: LogEntry): seq<SpecFile>
    requires e.op.Create? || (e.op.Patch? && e.op.newBundle.Some?)
  {
    if e.op.Create? then e.op.bundle else e.op.newBundle.value
  }

  /** None of the requests after `i` and before `n` stored another. */
  predicate LastStored(log: seq<LogEntry>, i: int, n: int, d: DraftId)
  {
    0 <= i < n <= |log| && StoresFor(log[i], d) && forall k :: i < k < n ==> !StoresFor(log[k], d)
  }

  /** As long as there is this draft, it holds the bundle. */
  ghost predicate HoldsBundle(w: World, d: DraftId, bundle: seq<SpecFile>)
  {
    d in w.drafts ==> Stores(w.drafts[d].files, bundle)
  }

  /** Another request does not touch the files of a draft. */
  lemma OthersKeepFiles(w: World, e: LogEntry, d: DraftId, bundle: seq<SpecFile>)
    requires !StoresFor(e, d) && Serial(w, e.op).1 == e.outcome && HoldsBundle(w, d, bundle)
    ensures HoldsBundle(Serial(w, e.op).0, d, bundle)
  {
    hide Stores, Replaced, AsMap, UniqueNames, AllFlat;
  }

  lemma StoresNow(w: World, e: LogEntry, d: DraftId)
    requires StoresFor(e, d) && Serial(w, e.op).1 == e.outcome
    ensures HoldsBundle(Serial(w, e.op).0, d, BundleOf(e))
  {
    if e.op.Create? {
      CreateMeans(w, e.op);
    } else {
      PatchMeans(w, e.op);
    }
    hide Serial, Stores;
  }

  lemma AnswerAt(w: World, log: seq<LogEntry>, n: nat)
    requires AnswersMatch(w, log) && n < |log|
    ensures Serial(Replay(w, log[..n]), log[n].op).1 == log[n].outcome
  {
  }

  /** From the request that stored the bundle on, the draft holds it. */
  lemma {:induction false} BundleIsKept(w: World, log: seq<LogEntry>, i: nat, n: nat, d: DraftId)
    requires AnswersMatch(w, log) && LastStored(log, i, n, d)
    ensures HoldsBundle(Replay(w, log[..n]), d, BundleOf(log[i]))
    decreases n
  {
    hide Serial, Replay, AnswersMatch, HoldsBundle;
    ReplayOneMore(w, log, n - 1);
    AnswerAt(w, log, n - 1);
    if n == i + 1 {
      StoresNow(Replay(w, log[..i]), log[i], d);
    } else {
      BundleIsKept(w, log, i, n - 1, d);
      OthersKeepFiles(Replay(w, log[..n - 1]), log[n - 1], d, BundleOf(log[i]));
    }
  }

  lemma ReplayOneMore(w: World, log: seq<LogEntry>, n: nat)
    requires n < |log|
    ensures Replay(w, log[..n + 1]) == Serial(Replay(w, log[..n]), log[n].op).0
  {
    assert log[..n + 1][..n] == log[..n];
    hide Serial;
  }

  /** A published draft stays as it is in the log. */
  lemma {:induction false} PublishedIsKept(w: World, log: seq<LogEntry>, m: nat, n: nat, d: DraftId)
    requires m <= n <= |log|
    requires d in Replay(w, log[..m]).drafts && Replay(w, log[..m]).drafts[d].status == Published
    ensures d in Replay(w, log[..n]).drafts && Replay(w, log[..n]).drafts[d] == Replay(w, log[..m]).drafts[d]
    decreases n
  {
    hide Serial;
    if m < n {
      PublishedIsKept(w, log, m, n - 1, d);
      ReplayOneMore(w, log, n - 1);
      SerialKeepsPublished(Replay(w, log[..n - 1]), log[n - 1].op, d);
    }
  }

  /** The directory holds the bundle: its names are the regular ones, and each file has its content unless the
      name is a link. */
  ghost predicate PublicIs(dir: Dir, bundle: seq<SpecFile>)
  {
    && (forall i :: 0 <= i < |bundle| ==>
          bundle[i].name in dir && (dir[bundle[i].name].Link? || dir[bundle[i].name] == File(bundle[i].content)))
    && (forall n :: n in dir && dir[n].File? ==> exists i :: 0 <= i < |bundle| && bundle[i].name == n)
  }

  lemma HeldIsPublic(dir: Dir, files: map<string, string>, bundle: seq<SpecFile>)
    requires Regular(dir) == Plain(files, dir) && files.Keys !! Directories(dir) && Stores(files, bundle)
    ensures PublicIs(dir, bundle)
  {
    forall i | 0 <= i < |bundle|
      ensures bundle[i].name in dir && (dir[bundle[i].name].Link? || dir[bundle[i].name] == File(bundle[i].content))
    {
      var n := bundle[i].name;
      assert n in Others(dir) ==> n !in Directories(dir);
      assert n !in Others(dir) ==> n in Plain(files, dir) && n in Regular(dir) && Regular(dir)[n] == files[n];
    }
    forall n | n in dir && dir[n].File?
      ensures n in files
    {
      assert n in Regular(dir);
    }
  }

  lemma PublishedNow(w: World, op: Op)
    requires WorldInv(w) && op.Publish? && Serial(w, op).1.NewVersion?
    ensures
      var w', d := Serial(w, op).0, op.draft;
      && d in w.drafts && PublishedAt(w', op.project, Serial(w, op).1.version - 1, d)
      && w'.drafts[d].files == w.drafts[d].files
  {
    hide VersionsCountPublished;
    PublishMeans(w, op);
    hide Serial;
  }

  /** When a publish takes effect its draft holds what was stored last. */
  lemma PublishedThen(w: World, log: seq<LogEntry>, i: nat, j: nat, d: DraftId)
    requires WorldInv(w) && AnswersMatch(w, log) && j < |log| && LastStored(log, i, j, d)
    requires log[j].op.Publish? && log[j].outcome.NewVersion? && log[j].op.draft == d
    ensures
      var mid := Replay(w, log[..j + 1]);
      PublishedAt(mid, log[j].op.project, log[j].outcome.version - 1, d) && HoldsBundle(mid, d, BundleOf(log[i]))
  {
    var at, e := Replay(w, log[..j]), log[j];
    hide Stores, Serial, WorldInv, Replay, AnswersMatch, LastStored, PublishedAt;
    ReplayKeepsInv(w, log[..j]);
    BundleIsKept(w, log, i, j, d);
    AnswerAt(w, log, j);
    ReplayOneMore(w, log, j);
    PublishedNow(at, e.op);
  }

  /** What the log says of a publish, and of its draft ever after. */
  lemma PublishedFromThenOn(w: World, log: seq<LogEntry>, i: nat, j: nat, d: DraftId)
    requires WorldInv(w) && AnswersMatch(w, log) && j < |log| && LastStored(log, i, j, d)
    requires log[j].op.Publish? && log[j].outcome.NewVersion? && log[j].op.draft == d
    ensures
      var end, p := Replay(w, log), log[j].op.project;
      && PublishedAt(end, p, log[j].outcome.version - 1, d)
      && Stores(end.drafts[d].files, BundleOf(log[i]))
  {
    hide Stores, Serial, WorldInv, Replay, AnswersMatch, LastStored, BundleOf;
    PublishedThen(w, log, i, j, d);
    PublishedToTheEnd(w, log, j + 1, d);
  }

  lemma PublishedToTheEnd(w: World, log: seq<LogEntry>, m: nat, d: DraftId)
    requires m <= |log|
    requires d in Replay(w, log[..m]).drafts && Replay(w, log[..m]).drafts[d].status == Published
    ensures d in Replay(w, log).drafts && Replay(w, log).drafts[d] == Replay(w, log[..m]).drafts[d]
  {
    hide Replay, Serial;
    PublishedIsKept(w, log, m, |log|, d);
    assert log[..|log|] == log;
  }

  lemma NewestIsHeld(s: State, p: ProjectId, d: DraftId, k: int)
    requires WorldInv(Abs(s)) && PublishedAt(Abs(s), p, k, d)
    requires p in s.w.versions && s.w.versions[p] == k + 1 && p !in s.w.broken && p !in s.saved
    ensures p in s.w.disk && Holds(s.w.disk[p], s.w.drafts[d].files)
    ensures s.w.drafts == Abs(s).drafts
  {
    assert Abs(s).disk.Keys == Abs(s).versions.Keys;
    assert p in Abs(s).disk && Abs(s).disk[p] == s.w.disk[p];
    hide VersionsCountPublished;
  }

  /** In every interleaving: the files a caller gave when the draft was stored last are, once a publish of it has
      answered with a version, the public files for as long as that version is the current one. */
  lemma PublishedIsRequested(disk: map<ProjectId, Dir>, steps: seq<Step>, i: nat, j: nat)
    requires i < j < |Run(Initial(disk), steps).log|
    requires
      var log := Run(Initial(disk), steps).log;
      log[j].op.Publish? && log[j].outcome.NewVersion? && LastStored(log, i, j, log[j].op.draft)
    ensures
      var s := Run(Initial(disk), steps);
      var p := s.log[j].op.project;
      (p in s.w.versions && s.w.versions[p] == s.log[j].outcome.version && p !in s.w.broken && p !in s.saved) ==>
        p in s.w.disk && PublicIs(s.w.disk[p], BundleOf(s.log[i]))
  {
    var s := Run(Initial(disk), steps);
    var p, w := s.log[j].op.project, Initial(disk).w;
    RunAnswersMatch(disk, steps);
    RunRefinesSerial(disk, steps);
    InitialWorld(disk);
    ReplayKeepsInv(w, s.log);
    hide Run, Initial, Serial, Stores, LastStored, AnswersMatch, PublicIs;
    PublishedFromThenOn(w, s.log, i, j, s.log[j].op.draft);
    hide Replay;
    if p in s.w.versions && s.w.versions[p] == s.log[j].outcome.version && p !in s.w.broken && p !in s.saved {
      NewestIsHeld(s, p, s.log[j].op.draft, s.log[j].outcome.version - 1);
      HeldIsPublic(s.w.disk[p], s.w.drafts[s.log[j].op.draft].files, BundleOf(s.log[i]));
    }
  }
}
