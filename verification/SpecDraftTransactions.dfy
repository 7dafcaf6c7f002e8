/** Create, patch, delete and publish as interleaved database transactions.

    A publish holds the row lock of its project from `LockProject` to its end and the row lock of
    its draft from `LockDraft` on; a patch holds the row lock of its draft. Rows written inside a
    transaction become visible at its commit, files on disk at once. `RunRefinesSerial` is the main
    result: every interleaving leaves the log of one request at a time. */
module SpecDraftTransactions {
  import opened Options
  import opened SpecDrafts

  type TxId = nat

  datatype Phase =
    | ProjectLocked
    | DraftLocked(baseVersion: int)
    | FilesRead(files: map<string, string>)
    | Removing(files: map<string, string>, obsolete: set<string>)
    | Writing(files: map<string, string>, todo: set<string>)
    | Bumped(files: map<string, string>)
    | Flipped(files: map<string, string>, newRow: DraftRow)

  datatype Tx =
      // the UPDATE matched a row; `row` is its uncommitted image
    | PatchTx(op: Op, row: DraftRow)
      // a DELETE removed nothing; the follow-up query is still to come
    | DeleteMissed(op: Op, answer: Outcome)
      // `version` is `specPublicVersion` as read under the project lock
    | PublishTx(op: Op, version: nat, phase: Phase)

  /** One finished request and what its caller was told. */
  datatype LogEntry = LogEntry(op: Op, outcome: Outcome)

  /** `w` holds the committed rows and the directories as they are right now; `saved` remembers the
      directory of every project whose files are being replaced, as it was before. */
  datatype State = State(w: World, saved: map<ProjectId, Dir>, txs: map<TxId, Tx>, log: seq<LogEntry>)

  datatype Step =
    | DoCreate(op: Op)
    | BeginPatch(t: TxId, op: Op)
    | CommitPatch(t: TxId)
    | DoDelete(t: TxId, op: Op)
    | AnswerDelete(t: TxId)
    | LockProject(t: TxId, op: Op)
    | LockDraft(t: TxId)
    | Compare(t: TxId)
    | ListDirectory(t: TxId)
    | RemoveFile(t: TxId, name: string)
    | StartWriting(t: TxId)
    | WriteFile(t: TxId, name: string)
    | BumpVersion(t: TxId)
    | FlipStatus(t: TxId)
    | CommitPublish(t: TxId)
      // an error or a lost connection: the database rolls back, the disk stays as it is
    | Abort(t: TxId)

  // ---- locks ---------------------------------------------------------------------------------

  /** The project row a transaction holds `FOR UPDATE`. */
  function LockedProject(tx: Tx): Option<ProjectId>
  {
    if tx.PublishTx? && tx.op.Publish? then Some(tx.op.project) else None
  }

  /** The draft row a transaction holds. */
  function LockedDraft(tx: Tx): Option<DraftId>
  {
    if tx.PatchTx? && tx.op.Patch? then Some(tx.op.draft)
    else if tx.PublishTx? && tx.op.Publish? && !tx.phase.ProjectLocked? then Some(tx.op.draft)
    else None
  }

  predicate ProjectFree(s: State, p: ProjectId)
  {
    forall t :: t in s.txs ==> LockedProject(s.txs[t]) != Some(p)
  }

  predicate DraftFree(s: State, d: DraftId)
  {
    forall t :: t in s.txs ==> LockedDraft(s.txs[t]) != Some(d)
  }

  predicate TouchesDisk(tx: Tx)
  {
    tx.PublishTx? && (tx.phase.Removing? || tx.phase.Writing? || tx.phase.Bumped? || tx.phase.Flipped?)
  }

  // ---- steps; a step whose guard fails leaves the state as it is -----------------------------

  function Finish(s: State, t: TxId, entry: LogEntry): State
  {
    s.(txs := s.txs - {t}, log := s.log + [entry])
  }

  function SetPhase(s: State, t: TxId, phase: Phase): State
    requires t in s.txs && s.txs[t].PublishTx?
  {
    s.(txs := s.txs[t := s.txs[t].(phase := phase)])
  }

  predicate Publishing(s: State, t: TxId)
  {
    t in s.txs && s.txs[t].PublishTx? && s.txs[t].op.Publish? && s.txs[t].op.project in s.w.disk
  }

  /** The insert of the draft and its files, visible only at commit. A fresh id is one that no row
      has and no open transaction mentions. */
  function CreateStep(s: State, op: Op): State
  {
    if op.Create? && (forall t :: t in s.txs && s.txs[t].op.Delete? ==> s.txs[t].op.draft != op.id) then
      var (w', out) := Serial(s.w, op);
      s.(w := w', log := s.log + [LogEntry(op, out)])
    else s
  }

  /** UPDATE ... WHERE id, project, owner, status = 'draft': a matching row is locked, otherwise
      nothing is affected and the caller hears not_found. */
  function BeginPatchStep(s: State, t: TxId, op: Op): State
  {
    if t in s.txs || !op.Patch? then s
    else if !Editable(s.w.drafts, op.draft, op.project, op.owner) then
      s.(log := s.log + [LogEntry(op, NotFound)])
    else if !DraftFree(s, op.draft) then s
    else if op.newBundle.Some? && !UniqueNames(op.newBundle.value) then
      // the primary key (draft_id, name) rejects the insert and the transaction rolls back
      s.(log := s.log + [LogEntry(op, Threw)])
    else s.(txs := s.txs[t := PatchTx(op, Patched(s.w.drafts[op.draft], op))])
  }

  function CommitPatchStep(s: State, t: TxId): State
  {
    if t !in s.txs || !s.txs[t].PatchTx? || !s.txs[t].op.Patch? then s
    else
      var tx := s.txs[t];
      Finish(s.(w := s.w.(drafts := s.w.drafts[tx.op.draft := tx.row])), t, LogEntry(tx.op, Ok))
  }

  /** A DELETE is one statement; when it removes nothing a second query decides the answer. The log
      records what that query would say now; `DeleteAnswerIsStable` shows it says the same later. */
  function DeleteStep(s: State, t: TxId, op: Op): State
  {
    if t in s.txs || !op.Delete? then s
    else if Editable(s.w.drafts, op.draft, op.project, op.owner) then
      if !DraftFree(s, op.draft) then s
      else s.(w := s.w.(drafts := s.w.drafts - {op.draft}), log := s.log + [LogEntry(op, Ok)])
    else
      var answer := DeleteMissAnswer(s.w.drafts, op);
      s.(txs := s.txs[t := DeleteMissed(op, answer)], log := s.log + [LogEntry(op, answer)])
  }

  function AnswerDeleteStep(s: State, t: TxId): State
  {
    if t in s.txs && s.txs[t].DeleteMissed? then s.(txs := s.txs - {t}) else s
  }

  function LockProjectStep(s: State, t: TxId, op: Op): State
  {
    if t in s.txs || !op.Publish? then s
    else if op.project !in s.w.versions || op.project !in s.w.disk then
      s.(log := s.log + [LogEntry(op, NotFound)])
    else if !ProjectFree(s, op.project) then s
    else s.(txs := s.txs[t := PublishTx(op, s.w.versions[op.project], ProjectLocked)])
  }

  function LockDraftStep(s: State, t: TxId): State
  {
    if !Publishing(s, t) || !s.txs[t].phase.ProjectLocked? then s
    else
      var op := s.txs[t].op;
      if !Editable(s.w.drafts, op.draft, op.project, op.owner) then Finish(s, t, LogEntry(op, NotFound))
      else if !DraftFree(s, op.draft) then s
      else SetPhase(s, t, DraftLocked(s.w.drafts[op.draft].baseVersion))
  }

  /** The compare of the compare-and-swap; the conflict body is read under the project lock. A match
      goes on to select the files and to validate every name before the disk is touched. */
  function CompareStep(s: State, t: TxId): State
  {
    if !Publishing(s, t) || !s.txs[t].phase.DraftLocked? then s
    else
      var tx := s.txs[t];
      if tx.phase.baseVersion != tx.version then
        Finish(s, t, LogEntry(tx.op, Conflict(tx.version, Regular(s.w.disk[tx.op.project]))))
      else if tx.op.draft !in s.w.drafts then s
      else
        var files := s.w.drafts[tx.op.draft].files;
        if !AllFlat(files.Keys) then Finish(s, t, LogEntry(tx.op, Threw))
        else SetPhase(s, t, FilesRead(files))
  }

  function ListStep(s: State, t: TxId): State
  {
    if !Publishing(s, t) || !s.txs[t].phase.FilesRead? then s
    else
      var tx := s.txs[t];
      var dir := s.w.disk[tx.op.project];
      SetPhase(s, t, Removing(tx.phase.files, Regular(dir).Keys - tx.phase.files.Keys)).
        (saved := s.saved[tx.op.project := dir])
  }

  function RemoveStep(s: State, t: TxId, name: string): State
  {
    if !Publishing(s, t) || !s.txs[t].phase.Removing? || name !in s.txs[t].phase.obsolete then s
    else
      var p, phase := s.txs[t].op.project, s.txs[t].phase;
      SetPhase(s, t, phase.(obsolete := phase.obsolete - {name})).
        (w := s.w.(disk := s.w.disk[p := s.w.disk[p] - {name}]))
  }

  function StartWritingStep(s: State, t: TxId): State
  {
    if !Publishing(s, t) || !s.txs[t].phase.Removing? || s.txs[t].phase.obsolete != {} then s
    else SetPhase(s, t, Writing(s.txs[t].phase.files, s.txs[t].phase.files.Keys))
  }

  /** Writing onto a directory fails; such a transaction can only abort. */
  function WriteStep(s: State, t: TxId, name: string): State
  {
    if !Publishing(s, t) || !s.txs[t].phase.Writing? || name !in s.txs[t].phase.todo || name !in s.txs[t].phase.files
    then s
    else
      var p, phase := s.txs[t].op.project, s.txs[t].phase;
      if name in Directories(s.w.disk[p]) then s
      else
        SetPhase(s, t, phase.(todo := phase.todo - {name})).
          (w := s.w.(disk := s.w.disk[p := Written(s.w.disk[p], name, phase.files[name])]))
  }

  function BumpStep(s: State, t: TxId): State
  {
    if !Publishing(s, t) || !s.txs[t].phase.Writing? || s.txs[t].phase.todo != {} then s
    else SetPhase(s, t, Bumped(s.txs[t].phase.files))
  }

  /** The final UPDATE filters on id, owner and status = 'draft'. */
  predicate FlipAffectsRow(s: State, op: Op)
    requires op.Publish?
  {
    op.draft in s.w.drafts && s.w.drafts[op.draft].owner == op.owner && s.w.drafts[op.draft].status == Draft
  }

  function AbortStep(s: State, t: TxId): State
  {
    if t !in s.txs || s.txs[t].DeleteMissed? then s
    else if TouchesDisk(s.txs[t]) && Publishing(s, t) then
      var op := s.txs[t].op;
      Finish(s.(w := s.w.(broken := s.w.broken + {op.project}), saved := s.saved - {op.project}), t,
             LogEntry(PublishBroken(op.draft, op.project, op.owner, s.w.disk[op.project]), Threw))
    else s.(txs := s.txs - {t})
  }

  function FlipStep(s: State, t: TxId): State
  {
    if !Publishing(s, t) || !s.txs[t].phase.Bumped? then s
    else if !FlipAffectsRow(s, s.txs[t].op) then AbortStep(s, t) // the "no longer in 'draft'" throw
    else SetPhase(s, t, Flipped(s.txs[t].phase.files, s.w.drafts[s.txs[t].op.draft].(status := Published)))
  }

  function CommitPublishStep(s: State, t: TxId): State
  {
    if !Publishing(s, t) || !s.txs[t].phase.Flipped? then s
    else
      var tx := s.txs[t];
      var p := tx.op.project;
      Finish(s.(w := World(s.w.versions[p := tx.version + 1], s.w.drafts[tx.op.draft := tx.phase.newRow],
                           s.w.disk, s.w.broken - {p}),
                saved := s.saved - {p}),
             t, LogEntry(tx.op, NewVersion(tx.version + 1)))
  }

  function Next(s: State, step: Step): State
  {
    match step
    case DoCreate(op) => CreateStep(s, op)
    case BeginPatch(t, op) => BeginPatchStep(s, t, op)
    case CommitPatch(t) => CommitPatchStep(s, t)
    case DoDelete(t, op) => DeleteStep(s, t, op)
    case AnswerDelete(t) => AnswerDeleteStep(s, t)
    case LockProject(t, op) => LockProjectStep(s, t, op)
    case LockDraft(t) => LockDraftStep(s, t)
    case Compare(t) => CompareStep(s, t)
    case ListDirectory(t) => ListStep(s, t)
    case RemoveFile(t, name) => RemoveStep(s, t, name)
    case StartWriting(t) => StartWritingStep(s, t)
    case WriteFile(t, name) => WriteStep(s, t, name)
    case BumpVersion(t) => BumpStep(s, t)
    case FlipStatus(t) => FlipStep(s, t)
    case CommitPublish(t) => CommitPublishStep(s, t)
    case Abort(t) => AbortStep(s, t)
  }

  function Run(s: State, steps: seq<Step>): State
  {
    if steps == [] then s else Next(Run(s, steps[..|steps| - 1]), steps[|steps| - 1])
  }

  function Initial(disk: map<ProjectId, Dir>): State
  {
    State(World(map p | p in disk :: 0, map[], disk, {}), map[], map[], [])
  }

  // ---- the invariant -------------------------------------------------------------------------

  /** The files of `dir` while a bundle is being written over it. */
  ghost predicate DiskProgress(phase: Phase, before: Dir, dir: Dir)
  {
    && Others(dir) == Others(before)
    && match phase
       case Removing(files, obsolete) => Regular(dir).Keys <= files.Keys + obsolete && obsolete !! Others(dir).Keys
       case Writing(files, todo) =>
         && Regular(dir).Keys <= files.Keys && todo <= files.Keys
         && (forall n :: n in files && n !in todo ==>
               n in dir && (dir[n].Link? || dir[n] == File(files[n])))
       case Bumped(files) => Holds(dir, files)
       case Flipped(files, _) => Holds(dir, files)
       case _ => true
  }

  ghost predicate PhaseOk(w: World, op: Op, version: nat, phase: Phase)
    requires op.Publish?
  {
    !phase.ProjectLocked? ==>
      && Editable(w.drafts, op.draft, op.project, op.owner)
      && (var row := w.drafts[op.draft];
          match phase
          case ProjectLocked => true
          case DraftLocked(baseVersion) => baseVersion == row.baseVersion
          case Flipped(files, newRow) =>
            row.baseVersion == version && files == row.files && AllFlat(files.Keys)
                && newRow == row.(status := Published)
          case _ => row.baseVersion == version && phase.files == row.files && AllFlat(row.files.Keys))
  }

  ghost predicate TxOk(w: World, saved: map<ProjectId, Dir>, tx: Tx)
  {
    match tx
    case PatchTx(op, row) =>
      && op.Patch?
      && Editable(w.drafts, op.draft, op.project, op.owner)
      && (op.newBundle.Some? ==> UniqueNames(op.newBundle.value))
      && row == Patched(w.drafts[op.draft], op)
    case DeleteMissed(op, answer) =>
      op.Delete? && !Editable(w.drafts, op.draft, op.project, op.owner) && answer == DeleteMissAnswer(w.drafts, op)
    case PublishTx(op, version, phase) =>
      && op.Publish?
      && op.project in w.versions && op.project in w.disk
      && version == w.versions[op.project]
      && PhaseOk(w, op, version, phase)
      && (TouchesDisk(tx) ==> op.project in saved && DiskProgress(phase, saved[op.project], w.disk[op.project]))
  }

  /** No two transactions hold the lock of the same row. */
  predicate Apart(a: Tx, b: Tx)
  {
    && (LockedProject(a).Some? ==> LockedProject(a) != LockedProject(b))
    && (LockedDraft(a).Some? ==> LockedDraft(a) != LockedDraft(b))
  }

  ghost predicate RowsOk(w: World, saved: map<ProjectId, Dir>, txs: map<TxId, Tx>)
  {
    forall t :: t in txs ==> TxOk(w, saved, txs[t])
  }

  ghost predicate LocksApart(txs: map<TxId, Tx>)
  {
    forall t, u :: t in txs && u in txs && t != u ==> Apart(txs[t], txs[u])
  }

  ghost predicate IsTouched(txs: map<TxId, Tx>, p: ProjectId)
  {
    exists t :: t in txs && TouchesDisk(txs[t]) && LockedProject(txs[t]) == Some(p)
  }

  /** Only directories being rewritten are remembered. */
  ghost predicate SavedOk(saved: map<ProjectId, Dir>, txs: map<TxId, Tx>)
  {
    forall p :: p in saved ==> IsTouched(txs, p)
  }

  ghost predicate Inv(s: State)
  {
    && s.w.versions.Keys == s.w.disk.Keys
    && RowsOk(s.w, s.saved, s.txs)
    && LocksApart(s.txs)
    && SavedOk(s.saved, s.txs)
  }

  /** The world as the log describes it: half-written directories count as not yet written. */
  function Abs(s: State): World
  {
    s.w.(disk := s.w.disk + s.saved)
  }

  /** What a step may do: nothing the log can see, or exactly one request run alone. */
  ghost predicate Refines(s: State, s': State)
  {
    || (s'.log == s.log && Abs(s') == Abs(s))
    || (|s'.log| == |s.log| + 1 && s'.log[..|s.log|] == s.log &&
        Serial(Abs(s), s'.log[|s.log|].op) == (Abs(s'), s'.log[|s.log|].outcome))
  }

  lemma SameEntriesSameDir(a: Dir, b: Dir)
    requires Regular(a) == Regular(b) && Others(a) == Others(b)
    ensures a == b
  {
    forall n
      ensures n in a <==> n in b
      ensures n in a ==> a[n] == b[n]
    {
      assert n in a <==> n in Regular(a) || n in Others(a);
      assert n in b <==> n in Regular(b) || n in Others(b);
      if n in Regular(a) {
        assert Regular(a)[n] == Regular(b)[n];
      }
    }
  }

  // ---- framing: a step leaves every other transaction's facts alone --------------------------

  lemma RowsOkWith(w: World, saved: map<ProjectId, Dir>, txs: map<TxId, Tx>, t: TxId, tx: Tx)
    requires RowsOk(w, saved, txs - {t}) && TxOk(w, saved, tx)
    ensures RowsOk(w, saved, txs[t := tx])
  {
    hide TxOk;
    forall u | u in txs && u != t
      ensures TxOk(w, saved, txs[u])
    {
      assert u in txs - {t};
    }
  }

  lemma RowsOkWithout(w: World, saved: map<ProjectId, Dir>, txs: map<TxId, Tx>, t: TxId)
    requires RowsOk(w, saved, txs)
    ensures RowsOk(w, saved, txs - {t})
  {
    hide TxOk;
  }

  lemma LocksApartWith(txs: map<TxId, Tx>, t: TxId, tx: Tx)
    requires LocksApart(txs)
    requires forall u :: u in txs && u != t ==> Apart(tx, txs[u]) && Apart(txs[u], tx)
    ensures LocksApart(txs[t := tx])
  {
    hide Apart;
  }

  lemma SameLocksApart(txs: map<TxId, Tx>, t: TxId, tx: Tx)
    requires LocksApart(txs) && t in txs
    requires LockedProject(tx) == LockedProject(txs[t]) && LockedDraft(tx) == LockedDraft(txs[t])
    ensures LocksApart(txs[t := tx])
  {
    hide LockedProject, LockedDraft;
    assert forall u :: u in txs && u != t ==> Apart(tx, txs[u]) && Apart(txs[u], tx);
    LocksApartWith(txs, t, tx);
  }

  lemma LocksApartWithout(txs: map<TxId, Tx>, t: TxId)
    requires LocksApart(txs)
    ensures LocksApart(txs - {t})
  {
    hide Apart;
  }

  lemma SavedOkAfter(saved: map<ProjectId, Dir>, saved': map<ProjectId, Dir>, txs: map<TxId, Tx>, txs': map<TxId,
                     Tx>, t: TxId)
    requires SavedOk(saved, txs)
    requires forall u :: u in txs && u != t ==> u in txs' && txs'[u] == txs[u]
    requires forall p :: p in saved' ==>
               || (t in txs' && TouchesDisk(txs'[t]) && LockedProject(txs'[t]) == Some(p))
               || (p in saved && !(t in txs && LockedProject(txs[t]) == Some(p) && TouchesDisk(txs[t])))
    ensures SavedOk(saved', txs')
  {
    hide LockedProject, TouchesDisk;
    forall p | p in saved'
      ensures IsTouched(txs', p)
    {
      if !(t in txs' && TouchesDisk(txs'[t]) && LockedProject(txs'[t]) == Some(p)) {
        assert IsTouched(txs, p);
        var u :| u in txs && TouchesDisk(txs[u]) && LockedProject(txs[u]) == Some(p);
        assert u in txs' && txs'[u] == txs[u];
      }
    }
  }

  /** A publish whose files are not being written sees its project's directory as the log does. */
  lemma UntouchedNotSaved(s: State, t: TxId)
    requires LocksApart(s.txs) && SavedOk(s.saved, s.txs)
    requires t in s.txs && LockedProject(s.txs[t]).Some? && !TouchesDisk(s.txs[t])
    ensures s.txs[t].op.project !in s.saved
  {
    var p := s.txs[t].op.project;
    forall u | u in s.txs && TouchesDisk(s.txs[u])
      ensures LockedProject(s.txs[u]) != Some(p)
    {
      assert u != t;
      assert Apart(s.txs[t], s.txs[u]);
    }
    assert !IsTouched(s.txs, p);
  }

  /** A new transaction that takes only free locks. */
  lemma NewTxKeepsInv(s: State, s': State, t: TxId, tx: Tx)
    requires Inv(s) && t !in s.txs && s'.txs == s.txs[t := tx]
    requires s'.w == s.w && s'.saved == s.saved
    requires TxOk(s.w, s.saved, tx)
    requires forall u :: u in s.txs ==> Apart(tx, s.txs[u]) && Apart(s.txs[u], tx)
    ensures Inv(s')
  {
    hide TxOk, Apart, RowsOk, LocksApart, SavedOk;
    RowsOkWithout(s.w, s.saved, s.txs, t);
    RowsOkWith(s.w, s.saved, s.txs, t, tx);
    LocksApartWith(s.txs, t, tx);
    SavedOkAfter(s.saved, s'.saved, s.txs, s'.txs, t);
  }

  /** A transaction that ends without having touched the disk. */
  lemma EndTxKeepsInv(s: State, s': State, t: TxId)
    requires Inv(s) && t in s.txs && s'.txs == s.txs - {t} && !TouchesDisk(s.txs[t])
    requires s'.w == s.w && s'.saved == s.saved
    ensures Inv(s')
  {
    hide RowsOk, LocksApart, SavedOk, LockedProject, TouchesDisk;
    RowsOkWithout(s.w, s.saved, s.txs, t);
    LocksApartWithout(s.txs, t);
    SavedOkAfter(s.saved, s'.saved, s.txs, s'.txs, t);
  }

  /** A transaction that moves on and keeps, or extends, its locks. */
  lemma PhaseStepKeepsInv(s: State, s': State, t: TxId, tx: Tx)
    requires Inv(s) && t in s.txs && s'.txs == s.txs[t := tx]
    requires s'.w == s.w && s'.saved == s.saved
    requires LockedProject(tx) == LockedProject(s.txs[t]) && LocksApart(s'.txs)
    requires TxOk(s.w, s.saved, tx) && (TouchesDisk(s.txs[t]) ==> TouchesDisk(tx))
    ensures Inv(s')
  {
    hide RowsOk, LocksApart, SavedOk, LockedProject, TouchesDisk, TxOk;
    RowsOkWithout(s.w, s.saved, s.txs, t);
    RowsOkWith(s.w, s.saved, s.txs, t, tx);
    SavedOkAfter(s.saved, s'.saved, s.txs, s'.txs, t);
  }

  /** One draft row was inserted, patched, published or deleted by someone else. */
  ghost predicate RowChanged(before: map<DraftId, DraftRow>, after: map<DraftId, DraftRow>, d: DraftId)
  {
    && (forall e :: e != d ==> (e in before <==> e in after) && (e in before ==> after[e] == before[e]))
    && (d in before && d in after ==> after[d].project == before[d].project && after[d].owner == before[d].owner)
    && (d in before && before[d].status == Published ==> d in after && after[d] == before[d])
  }

  /** What a transaction relies on besides the draft rows is the same in `s'`. */
  ghost predicate SameProject(s: State, s': State, tx: Tx)
  {
    LockedProject(tx).Some? ==>
      var p := tx.op.project;
      && (p in s.w.versions ==> p in s'.w.versions && s'.w.versions[p] == s.w.versions[p])
      && (p in s.w.disk ==> p in s'.w.disk && s'.w.disk[p] == s.w.disk[p])
      && (p in s.saved ==> p in s'.saved && s'.saved[p] == s.saved[p])
  }

  lemma OtherRowStaysOk(s: State, s': State, tx: Tx, d: DraftId)
    requires TxOk(s.w, s.saved, tx) && LockedDraft(tx) != Some(d)
    requires RowChanged(s.w.drafts, s'.w.drafts, d) && SameProject(s, s', tx)
    requires tx.DeleteMissed? && tx.op.draft == d ==> d in s.w.drafts
    ensures TxOk(s'.w, s'.saved, tx)
  {
    hide DiskProgress;
  }

  lemma SameRowsStaysOk(s: State, s': State, tx: Tx)
    requires TxOk(s.w, s.saved, tx) && s'.w.drafts == s.w.drafts && SameProject(s, s', tx)
    ensures TxOk(s'.w, s'.saved, tx)
  {
    hide DiskProgress, Editable;
  }

  /** Someone else's row change leaves all other transactions' facts alone. */
  lemma OtherRowsOk(s: State, s': State, t: TxId, d: DraftId)
    requires RowsOk(s.w, s.saved, s.txs)
    requires RowChanged(s.w.drafts, s'.w.drafts, d)
    requires forall u :: u in s.txs && u != t ==>
      && LockedDraft(s.txs[u]) != Some(d) && SameProject(s, s', s.txs[u])
      && (s.txs[u].DeleteMissed? && s.txs[u].op.draft == d ==> d in s.w.drafts)
    ensures RowsOk(s'.w, s'.saved, s.txs - {t})
  {
    hide TxOk, RowChanged, SameProject, LockedDraft;
    forall u | u in s.txs && u != t
      ensures TxOk(s'.w, s'.saved, s.txs[u])
    {
      OtherRowStaysOk(s, s', s.txs[u], d);
    }
  }

  /** A publish working on its own project leaves every other transaction's facts alone. */
  lemma OwnProjectOnly(s: State, s': State, t: TxId)
    requires RowsOk(s.w, s.saved, s.txs) && s'.w.drafts == s.w.drafts
    requires forall u :: u in s.txs && u != t ==> SameProject(s, s', s.txs[u])
    ensures RowsOk(s'.w, s'.saved, s.txs - {t})
  {
    hide TxOk, SameProject;
    forall u | u in s.txs && u != t
      ensures TxOk(s'.w, s'.saved, s.txs[u])
    {
      SameRowsStaysOk(s, s', s.txs[u]);
    }
  }

  lemma OtherProjectsSame(s: State, s': State, t: TxId)
    requires LocksApart(s.txs) && t in s.txs && LockedProject(s.txs[t]).Some?
    requires forall p :: p in s.w.versions && p != s.txs[t].op.project ==>
             p in s'.w.versions && s'.w.versions[p] == s.w.versions[p]
    requires forall p :: p in s.w.disk && p != s.txs[t].op.project ==> p in s'.w.disk && s'.w.disk[p] == s.w.disk[p]
    requires forall p :: p in s.saved && p != s.txs[t].op.project ==> p in s'.saved && s'.saved[p] == s.saved[p]
    ensures forall u :: u in s.txs && u != t ==> SameProject(s, s', s.txs[u])
  {
    forall u | u in s.txs && u != t
      ensures SameProject(s, s', s.txs[u])
    {
      assert Apart(s.txs[t], s.txs[u]);
    }
  }

  // ---- each step -----------------------------------------------------------------------------

  /** A step that only writes the log. */
  lemma LogStepKeepsInv(s: State, s': State)
    requires Inv(s) && s'.w == s.w && s'.saved == s.saved && s'.txs == s.txs
    ensures Inv(s')
  {
    hide RowsOk, LocksApart, SavedOk;
  }

  lemma CreateKeepsInv(s: State, op: Op)
    requires Inv(s)
    ensures Inv(CreateStep(s, op))
  {
    var s' := CreateStep(s, op);
    if s'.w != s.w {
      CreateRowsOk(s, op);
      hide RowsOk, LocksApart, SavedOk;
    } else {
      LogStepKeepsInv(s, s');
    }
  }

  lemma CreateRowsOk(s: State, op: Op)
    requires RowsOk(s.w, s.saved, s.txs) && CreateStep(s, op).w != s.w
    ensures RowsOk(CreateStep(s, op).w, s.saved, s.txs)
  {
    var s' := CreateStep(s, op);
    assert RowChanged(s.w.drafts, s'.w.drafts, op.id);
    forall u | u in s.txs
      ensures TxOk(s'.w, s'.saved, s.txs[u])
    {
      hide RowChanged;
      assert TxOk(s.w, s.saved, s.txs[u]);
      OtherRowStaysOk(s, s', s.txs[u], op.id);
    }
  }

  lemma CreateRefines(s: State, op: Op)
    ensures Refines(s, CreateStep(s, op))
  {
    var s' := CreateStep(s, op);
    if s' != s {
      assert Serial(Abs(s), op) == (Abs(s'), s'.log[|s.log|].outcome);
    }
  }

  lemma BeginPatchKeepsInv(s: State, t: TxId, op: Op)
    requires Inv(s)
    ensures Inv(BeginPatchStep(s, t, op))
  {
    hide Inv;
    var s' := BeginPatchStep(s, t, op);
    if t in s'.txs && t !in s.txs {
      NewTxKeepsInv(s, s', t, s'.txs[t]);
    } else {
      LogStepKeepsInv(s, s');
    }
  }

  lemma BeginPatchRefines(s: State, t: TxId, op: Op)
    ensures Refines(s, BeginPatchStep(s, t, op))
  {
  }

  lemma CommitPatchKeepsInv(s: State, t: TxId)
    requires Inv(s)
    ensures Inv(CommitPatchStep(s, t))
  {
    var s' := CommitPatchStep(s, t);
    if s' != s {
      CommitPatchRowsOk(s, t);
      hide RowsOk, LocksApart, SavedOk;
      LocksApartWithout(s.txs, t);
      SavedOkAfter(s.saved, s'.saved, s.txs, s'.txs, t);
    }
  }

  lemma CommitPatchRowsOk(s: State, t: TxId)
    requires RowsOk(s.w, s.saved, s.txs) && LocksApart(s.txs) && t in s.txs && s.txs[t].PatchTx?
    ensures RowsOk(CommitPatchStep(s, t).w, s.saved, s.txs - {t})
  {
    var s', tx := CommitPatchStep(s, t), s.txs[t];
    assert TxOk(s.w, s.saved, tx);
    hide TxOk, RowsOk;
    assert forall u :: u in s.txs && u != t ==> Apart(tx, s.txs[u]);
    OtherRowsOk(s, s', t, tx.op.draft);
  }

  lemma CommitPatchRefines(s: State, t: TxId)
    requires t in s.txs ==> TxOk(s.w, s.saved, s.txs[t])
    ensures Refines(s, CommitPatchStep(s, t))
  {
    var s' := CommitPatchStep(s, t);
    if s' != s {
      assert Serial(Abs(s), s.txs[t].op) == (Abs(s'), Ok);
    }
  }

  lemma DeleteKeepsInv(s: State, t: TxId, op: Op)
    requires Inv(s)
    ensures Inv(DeleteStep(s, t, op))
  {
    var s' := DeleteStep(s, t, op);
    if t in s'.txs && t !in s.txs {
      hide Inv, RowsOk, LocksApart, SavedOk;
      NewTxKeepsInv(s, s', t, s'.txs[t]);
    } else if s' != s {
      assert s'.w == s.w.(drafts := s.w.drafts - {op.draft}) && s'.saved == s.saved && s'.txs == s.txs;
      DeletedKeepsInv(s, s', t, op);
    }
  }

  lemma DeletedKeepsInv(s: State, s': State, t: TxId, op: Op)
    requires Inv(s) && t !in s.txs && op.Delete? && Editable(s.w.drafts, op.draft, op.project, op.owner)
    requires DraftFree(s, op.draft)
    requires s'.w == s.w.(drafts := s.w.drafts - {op.draft}) && s'.saved == s.saved && s'.txs == s.txs
    ensures Inv(s')
  {
    DeletedRowChanged(s, op);
    hide RowsOk, LocksApart, SavedOk, RowChanged, Editable, Apart, TxOk;
    assert s.txs - {t} == s.txs;
    OtherRowsOk(s, s', t, op.draft);
  }

  lemma DeletedRowChanged(s: State, op: Op)
    requires op.Delete? && Editable(s.w.drafts, op.draft, op.project, op.owner)
    ensures op.draft in s.w.drafts && RowChanged(s.w.drafts, s.w.drafts - {op.draft}, op.draft)
  {
  }

  lemma DeleteRefines(s: State, t: TxId, op: Op)
    ensures Refines(s, DeleteStep(s, t, op))
  {
    var s' := DeleteStep(s, t, op);
    if s' != s {
      assert Serial(Abs(s), op) == (Abs(s'), s'.log[|s.log|].outcome);
    }
  }

  lemma AnswerDeleteKeepsInv(s: State, t: TxId)
    requires Inv(s)
    ensures Inv(AnswerDeleteStep(s, t))
  {
    hide Inv;
    if AnswerDeleteStep(s, t) != s {
      EndTxKeepsInv(s, AnswerDeleteStep(s, t), t);
    }
  }

  lemma LockProjectKeepsInv(s: State, t: TxId, op: Op)
    requires Inv(s)
    ensures Inv(LockProjectStep(s, t, op))
  {
    hide Inv;
    var s' := LockProjectStep(s, t, op);
    if t in s'.txs && t !in s.txs {
      NewTxKeepsInv(s, s', t, s'.txs[t]);
    } else {
      LogStepKeepsInv(s, s');
    }
  }

  lemma LockProjectRefines(s: State, t: TxId, op: Op)
    requires s.w.versions.Keys == s.w.disk.Keys
    ensures Refines(s, LockProjectStep(s, t, op))
  {
  }

  lemma LockDraftKeepsInv(s: State, t: TxId)
    requires Inv(s)
    ensures Inv(LockDraftStep(s, t))
  {
    var s' := LockDraftStep(s, t);
    if s' != s && t in s'.txs {
      assert TxOk(s.w, s.saved, s.txs[t]);
      assert LocksApart(s'.txs) by {
        hide TxOk, RowsOk, SavedOk;
        assert forall u :: u in s.txs && u != t ==> Apart(s.txs[t], s.txs[u]) && Apart(s.txs[u], s.txs[t]);
        LocksApartWith(s.txs, t, s'.txs[t]);
      }
      hide Inv, LocksApart, RowsOk;
      PhaseStepKeepsInv(s, s', t, s'.txs[t]);
    } else if s' != s {
      hide Inv;
      EndTxKeepsInv(s, s', t);
    }
  }

  lemma LockDraftRefines(s: State, t: TxId)
    requires Inv(s)
    ensures Refines(s, LockDraftStep(s, t))
  {
    var s' := LockDraftStep(s, t);
    if s' != s && t !in s'.txs {
      UntouchedNotSaved(s, t);
      hide Inv;
      assert Serial(Abs(s), s.txs[t].op) == (Abs(s), NotFound);
    }
  }

  lemma CompareTxOk(w: World, saved: map<ProjectId, Dir>, tx: Tx, next: Tx)
    requires TxOk(w, saved, tx) && tx.PublishTx? && tx.phase.DraftLocked?
    requires tx.op.draft in w.drafts && tx.phase.baseVersion == tx.version
    requires AllFlat(w.drafts[tx.op.draft].files.Keys)
    requires next == tx.(phase := FilesRead(w.drafts[tx.op.draft].files))
    ensures TxOk(w, saved, next) && LockedProject(next) == LockedProject(tx) && LockedDraft(next) == LockedDraft(tx)
  {
    hide DiskProgress, AllFlat;
  }

  lemma CompareKeepsInv(s: State, t: TxId)
    requires Inv(s)
    ensures Inv(CompareStep(s, t))
  {
    var s' := CompareStep(s, t);
    if s' != s {
      if t in s'.txs {
        assert TxOk(s.w, s.saved, s.txs[t]);
        hide LocksApart, RowsOk, SavedOk, TxOk, LockedProject, LockedDraft, AllFlat;
        CompareTxOk(s.w, s.saved, s.txs[t], s'.txs[t]);
        SameLocksApart(s.txs, t, s'.txs[t]);
        PhaseStepKeepsInv(s, s', t, s'.txs[t]);
      } else {
        hide Inv, LocksApart, RowsOk, SavedOk, AllFlat;
        EndTxKeepsInv(s, s', t);
      }
    }
  }

  lemma CompareRefines(s: State, t: TxId)
    requires Inv(s)
    ensures Refines(s, CompareStep(s, t))
  {
    var s' := CompareStep(s, t);
    if s' != s && t !in s'.txs {
      UntouchedNotSaved(s, t);
      assert TxOk(s.w, s.saved, s.txs[t]);
      hide Inv, RowsOk, LocksApart, SavedOk, TxOk, Refines;
      CompareSerial(s, t);
    }
  }

  lemma CompareSerial(s: State, t: TxId)
    requires Publishing(s, t) && TxOk(s.w, s.saved, s.txs[t]) && s.txs[t].op.project !in s.saved
    requires s.txs[t].phase.DraftLocked? && t !in CompareStep(s, t).txs
    ensures Refines(s, CompareStep(s, t))
  {
    hide DiskProgress, Regular;
    var op := s.txs[t].op;
    assert Abs(s).disk[op.project] == s.w.disk[op.project];
    assert Serial(Abs(s), op) == (Abs(s), CompareStep(s, t).log[|s.log|].outcome);
  }

  lemma RememberedIsInvisible(disk: map<ProjectId, Dir>, saved: map<ProjectId, Dir>, p: ProjectId)
    requires p in disk && p !in saved
    ensures disk + saved[p := disk[p]] == disk + saved
  {
  }

  lemma RewrittenIsInvisible(disk: map<ProjectId, Dir>, saved: map<ProjectId, Dir>, p: ProjectId, dir: Dir)
    requires p in disk && p in saved
    ensures disk[p := dir] + saved == disk + saved
  {
  }

  /** Forgetting what a directory was makes its present contents the ones the log sees. */
  lemma ForgottenIsVisible(disk: map<ProjectId, Dir>, saved: map<ProjectId, Dir>, p: ProjectId)
    requires p in disk
    ensures disk + (saved - {p}) == (disk + saved)[p := disk[p]]
  {
  }

  /** The invariant after a publish worked on its own project's directory. */
  lemma OwnProjectStepKeepsInv(s: State, s': State, t: TxId, tx: Tx)
    requires Inv(s) && t in s.txs && LockedProject(s.txs[t]).Some? && s'.txs == s.txs[t := tx]
    requires s'.w.drafts == s.w.drafts && s'.w.versions == s.w.versions && s'.w.disk.Keys == s.w.disk.Keys
    requires LockedProject(tx) == LockedProject(s.txs[t]) && LockedDraft(tx) == LockedDraft(s.txs[t])
    requires forall p :: p in s.w.disk && p != s.txs[t].op.project ==> s'.w.disk[p] == s.w.disk[p]
    requires forall p :: p in s.saved && p != s.txs[t].op.project ==> p in s'.saved && s'.saved[p] == s.saved[p]
    requires forall p :: p in s'.saved ==> p in s.saved || p == s.txs[t].op.project
    requires TxOk(s'.w, s'.saved, tx) && TouchesDisk(tx)
    ensures Inv(s')
  {
    OtherProjectsSame(s, s', t);
    hide RowsOk, LocksApart, SavedOk, TxOk, SameProject;
    OwnProjectOnly(s, s', t);
    RowsOkWith(s'.w, s'.saved, s.txs, t, tx);
    SameLocksApart(s.txs, t, tx);
    SavedOkAfter(s.saved, s'.saved, s.txs, s'.txs, t);
  }

  lemma ListTxOk(w: World, saved: map<ProjectId, Dir>, tx: Tx, next: Tx)
    requires TxOk(w, saved, tx) && tx.PublishTx? && tx.phase.FilesRead?
    requires
      var dir := w.disk[tx.op.project];
      next == tx.(phase := Removing(tx.phase.files, Regular(dir).Keys - tx.phase.files.Keys))
    ensures tx.op.project in w.disk && TxOk(w, saved[tx.op.project := w.disk[tx.op.project]], next)
  {
  }

  lemma ListKeepsInv(s: State, t: TxId)
    requires Inv(s)
    ensures Inv(ListStep(s, t))
  {
    var s' := ListStep(s, t);
    if s' != s {
      assert TxOk(s.w, s.saved, s.txs[t]);
      hide Inv, TxOk, RowsOk, LocksApart, SavedOk, Regular;
      ListTxOk(s.w, s.saved, s.txs[t], s'.txs[t]);
      OwnProjectStepKeepsInv(s, s', t, s'.txs[t]);
    }
  }

  lemma ListRefines(s: State, t: TxId)
    requires Inv(s)
    ensures Refines(s, ListStep(s, t))
  {
    if Publishing(s, t) && s.txs[t].phase.FilesRead? {
      assert s.txs[t].op.project !in s.saved by { UntouchedNotSaved(s, t); }
      hide Inv, RowsOk, LocksApart, SavedOk, Regular;
      RememberedIsInvisible(s.w.disk, s.saved, s.txs[t].op.project);
      var s' := ListStep(s, t);
      assert s'.w == s.w && s'.log == s.log;
      assert s'.saved == s.saved[s.txs[t].op.project := s.w.disk[s.txs[t].op.project]];
      hide ListStep;
    }
  }

  /** One file of a directory already remembered in `saved` was removed or written. */
  lemma DiskStepRefines(s: State, s': State, t: TxId, tx: Tx, dir: Dir)
    requires Inv(s) && t in s.txs && TouchesDisk(s.txs[t])
    requires TouchesDisk(tx) && s'.txs == s.txs[t := tx] && tx.op == s.txs[t].op
    requires s.txs[t].op.Publish? && s.txs[t].op.project in s.w.disk && s.txs[t].op.project in s.saved
    requires s'.w == s.w.(disk := s.w.disk[s.txs[t].op.project := dir])
    requires s'.saved == s.saved && s'.log == s.log
    requires TxOk(s'.w, s'.saved, tx)
    ensures Inv(s') && Refines(s, s')
  {
    hide Inv, TxOk;
    OwnProjectStepKeepsInv(s, s', t, tx);
    RewrittenIsInvisible(s.w.disk, s.saved, s.txs[t].op.project, dir);
  }

  lemma RemoveRefines(s: State, t: TxId, name: string)
    requires Inv(s)
    ensures Inv(RemoveStep(s, t, name)) && Refines(s, RemoveStep(s, t, name))
  {
    var s' := RemoveStep(s, t, name);
    if s' != s {
      var tx, tx' := s.txs[t], s'.txs[t];
      var p := tx.op.project;
      assert TxOk(s.w, s.saved, tx);
      assert TxOk(s'.w, s'.saved, tx') by {
        RemoveKeepsProgress(tx.phase, s.saved[p], s.w.disk[p], name);
      }
      hide Inv, RowsOk, DiskProgress, PhaseOk;
      DiskStepRefines(s, s', t, tx', s.w.disk[p] - {name});
    }
  }

  lemma RemoveKeepsProgress(phase: Phase, before: Dir, dir: Dir, name: string)
    requires phase.Removing? && name in phase.obsolete && name !in Others(before) && DiskProgress(phase, before, dir)
    ensures DiskProgress(phase.(obsolete := phase.obsolete - {name}), before, dir - {name})
  {
    assert name !in Others(dir);
    assert Others(dir - {name}) == Others(dir);
    assert Regular(dir - {name}).Keys == Regular(dir).Keys - {name};
  }

  lemma StartWritingKeepsInv(s: State, t: TxId)
    requires Inv(s)
    ensures Inv(StartWritingStep(s, t))
  {
    var s' := StartWritingStep(s, t);
    if s' != s {
      assert TxOk(s.w, s.saved, s.txs[t]);
      SameLocksApart(s.txs, t, s'.txs[t]);
      hide Inv, LocksApart, RowsOk;
      PhaseStepKeepsInv(s, s', t, s'.txs[t]);
    }
  }

  lemma WriteRefines(s: State, t: TxId, name: string)
    requires Inv(s)
    ensures Inv(WriteStep(s, t, name)) && Refines(s, WriteStep(s, t, name))
  {
    var s' := WriteStep(s, t, name);
    if s' != s {
      var tx, tx' := s.txs[t], s'.txs[t];
      var p := tx.op.project;
      assert TxOk(s.w, s.saved, tx);
      assert TxOk(s'.w, s'.saved, tx') by {
        WriteKeepsProgress(tx.phase, s.saved[p], s.w.disk[p], name);
      }
      hide Inv, RowsOk, DiskProgress, PhaseOk;
      DiskStepRefines(s, s', t, tx', Written(s.w.disk[p], name, tx.phase.files[name]));
    }
  }

  lemma WriteKeepsProgress(phase: Phase, before: Dir, dir: Dir, name: string)
    requires phase.Writing? && name in phase.todo && name in phase.files && name !in Directories(dir)
    requires DiskProgress(phase, before, dir)
    ensures DiskProgress(phase.(todo := phase.todo - {name}), before, Written(dir, name, phase.files[name]))
  {
    var dir' := Written(dir, name, phase.files[name]);
    assert Others(dir') == Others(dir);
    assert Regular(dir').Keys <= Regular(dir).Keys + {name};
  }

  lemma BumpKeepsInv(s: State, t: TxId)
    requires Inv(s)
    ensures Inv(BumpStep(s, t))
  {
    var s' := BumpStep(s, t);
    if s' != s {
      var tx := s.txs[t];
      assert TxOk(s.w, s.saved, tx);
      AllWritten(tx.phase, s.saved[tx.op.project], s.w.disk[tx.op.project]);
      SameLocksApart(s.txs, t, s'.txs[t]);
      hide Inv, LocksApart, RowsOk;
      PhaseStepKeepsInv(s, s', t, s'.txs[t]);
    }
  }

  /** Once nothing is left to write, the regular files are the bundle, but for links. */
  lemma AllWritten(phase: Phase, before: Dir, dir: Dir)
    requires phase.Writing? && phase.todo == {} && DiskProgress(phase, before, dir)
    ensures Holds(dir, phase.files)
  {
    forall n | n in phase.files
      ensures n in dir && (dir[n].Link? || dir[n] == File(phase.files[n]))
    {
      assert n !in phase.todo;
    }
  }

  lemma AbortKeepsInv(s: State, t: TxId)
    requires Inv(s)
    ensures Inv(AbortStep(s, t))
  {
    var s' := AbortStep(s, t);
    if s' != s {
      assert TxOk(s.w, s.saved, s.txs[t]);
      if TouchesDisk(s.txs[t]) {
        hide RowsOk, LocksApart, SavedOk, SameProject, DiskProgress, PhaseOk;
        OtherProjectsSame(s, s', t);
        OwnProjectOnly(s, s', t);
        LocksApartWithout(s.txs, t);
        SavedOkAfter(s.saved, s'.saved, s.txs, s'.txs, t);
      } else {
        hide Inv, RowsOk, LocksApart, SavedOk;
        EndTxKeepsInv(s, s', t);
      }
    }
  }

  lemma AbortRefines(s: State, t: TxId)
    requires t in s.txs ==> TxOk(s.w, s.saved, s.txs[t])
    ensures Refines(s, AbortStep(s, t))
  {
    var s' := AbortStep(s, t);
    if s' != s && TouchesDisk(s.txs[t]) {
      ForgottenIsVisible(s.w.disk, s.saved, s.txs[t].op.project);
    }
  }

  lemma FlipAffectsOneRow(s: State, t: TxId)
    requires Inv(s) && Publishing(s, t) && s.txs[t].phase.Bumped?
    ensures FlipAffectsRow(s, s.txs[t].op)
  {
    assert TxOk(s.w, s.saved, s.txs[t]);
  }

  lemma FlipKeepsInv(s: State, t: TxId)
    requires Inv(s)
    ensures Inv(FlipStep(s, t)) && Refines(s, FlipStep(s, t))
  {
    var s' := FlipStep(s, t);
    if s' != s {
      FlipAffectsOneRow(s, t);
      assert TxOk(s.w, s.saved, s.txs[t]);
      SameLocksApart(s.txs, t, s'.txs[t]);
      hide Inv, LocksApart, RowsOk;
      PhaseStepKeepsInv(s, s', t, s'.txs[t]);
    }
  }

  lemma CommitPublishKeepsInv(s: State, t: TxId)
    requires Inv(s)
    ensures Inv(CommitPublishStep(s, t))
  {
    var s' := CommitPublishStep(s, t);
    if s' != s {
      CommitPublishRowsOk(s, t);
      assert s.txs[t].op.project in s.w.versions by {
        hide LocksApart, SavedOk, RowsOk;
        assert TxOk(s.w, s.saved, s.txs[t]) by {
          assert RowsOk(s.w, s.saved, s.txs);
          UnfoldRowsOk(s.w, s.saved, s.txs, t);
        }
      }
      hide RowsOk, LocksApart, SavedOk, TxOk;
      LocksApartWithout(s.txs, t);
      CommitPublishSavedOk(s, t);
    }
  }

  lemma UnfoldRowsOk(w: World, saved: map<ProjectId, Dir>, txs: map<TxId, Tx>, t: TxId)
    requires RowsOk(w, saved, txs) && t in txs
    ensures TxOk(w, saved, txs[t])
  {
  }

  lemma CommitPublishSavedOk(s: State, t: TxId)
    requires SavedOk(s.saved, s.txs) && Publishing(s, t)
    ensures SavedOk(CommitPublishStep(s, t).saved, CommitPublishStep(s, t).txs)
  {
    var s' := CommitPublishStep(s, t);
    hide SavedOk;
    SavedOkAfter(s.saved, s'.saved, s.txs, s'.txs, t);
  }

  lemma CommitPublishRowsOk(s: State, t: TxId)
    requires Inv(s) && Publishing(s, t) && s.txs[t].phase.Flipped?
    ensures RowsOk(CommitPublishStep(s, t).w, CommitPublishStep(s, t).saved, s.txs - {t})
  {
    var s', tx := CommitPublishStep(s, t), s.txs[t];
    CommitRowChanged(s, t) by {
      hide LocksApart, SavedOk;
      assert TxOk(s.w, s.saved, tx);
    }
    hide TxOk, RowsOk, RowChanged, SavedOk, LocksApart, SameProject;
    OtherProjectsSame(s, s', t);
    OthersLockOtherDrafts(s.txs, t);
    OtherRowsOk(s, s', t, tx.op.draft);
  }

  lemma OthersLockOtherDrafts(txs: map<TxId, Tx>, t: TxId)
    requires LocksApart(txs) && t in txs && LockedDraft(txs[t]).Some?
    ensures forall u :: u in txs && u != t ==> LockedDraft(txs[u]) != LockedDraft(txs[t])
  {
    forall u | u in txs && u != t
      ensures LockedDraft(txs[u]) != LockedDraft(txs[t])
    {
      hide LockedDraft, LockedProject;
      assert Apart(txs[t], txs[u]);
    }
  }

  lemma CommitRowChanged(s: State, t: TxId)
    requires Publishing(s, t) && s.txs[t].phase.Flipped? && TxOk(s.w, s.saved, s.txs[t])
    ensures s.txs[t].op.draft in s.w.drafts && s.txs[t].op.project in s.w.versions
    ensures RowChanged(s.w.drafts, CommitPublishStep(s, t).w.drafts, s.txs[t].op.draft)
  {
    hide DiskProgress;
  }

  lemma PublishIsLogged(s: State, t: TxId)
    requires Publishing(s, t) && s.txs[t].phase.Flipped?
    ensures CommitPublishStep(s, t).log == s.log + [LogEntry(s.txs[t].op, NewVersion(s.txs[t].version + 1))]
  {
  }

  lemma CommitPublishRefines(s: State, t: TxId)
    requires t in s.txs ==> TxOk(s.w, s.saved, s.txs[t])
    ensures Refines(s, CommitPublishStep(s, t))
  {
    if Publishing(s, t) && s.txs[t].phase.Flipped? {
      var s', tx := CommitPublishStep(s, t), s.txs[t];
      var op, p := tx.op, tx.op.project;
      hide Regular, Others, Replaced, DiskProgress;
      WrittenIsReplaced(tx.phase.files, s.saved[p], s.w.disk[p]);
      assert PhaseOk(s.w, op, tx.version, tx.phase);
      hide TxOk;
      ForgottenIsVisible(s.w.disk, s.saved, p);
      var before, row := Abs(s), s.w.drafts[op.draft];
      assert Abs(s') == World(before.versions[p := before.versions[p] + 1],
                              before.drafts[op.draft := row.(status := Published)],
                              before.disk[p := Replaced(before.disk[p], row.files)], before.broken - {p});
      hide CommitPublishStep;
      assert s'.log == s.log + [LogEntry(op, NewVersion(tx.version + 1))] by { PublishIsLogged(s, t); }
    }
  }

  /** Deleting and overwriting file by file ends in the directory a single replacement gives. */
  lemma WrittenIsReplaced(files: map<string, string>, before: Dir, now: Dir)
    requires Others(now) == Others(before) && Holds(now, files)
    ensures files.Keys !! Directories(before) && now == Replaced(before, files)
  {
    SameOthers(now, before, files);
    SameEntriesSameDir(Replaced(before, files), now);
  }

  lemma SameOthers(a: Dir, b: Dir, files: map<string, string>)
    requires Others(a) == Others(b)
    ensures Directories(a) == Directories(b) && Links(a) == Links(b) && Plain(files, a) == Plain(files, b)
  {
    assert forall n :: n in Directories(a) <==> n in Others(a) && Others(a)[n].Directory?;
    assert forall n :: n in Directories(b) <==> n in Others(b) && Others(b)[n].Directory?;
    assert forall n :: n in Links(a) <==> n in Others(a) && Others(a)[n].Link?;
    assert forall n :: n in Links(b) <==> n in Others(b) && Others(b)[n].Link?;
  }

  /** Every step keeps the invariant, and does nothing or exactly one request as far as the log sees. */
  lemma NextRefines(s: State, step: Step)
    requires Inv(s)
    ensures Inv(Next(s, step)) && Refines(s, Next(s, step))
  {
    NextKeepsInv(s, step);
    assert forall t :: t in s.txs ==> TxOk(s.w, s.saved, s.txs[t]);
    hide Inv, RowsOk, TxOk, Refines;
    match step
    case DoCreate(op) => CreateRefines(s, op);
    case BeginPatch(t, op) => BeginPatchRefines(s, t, op);
    case CommitPatch(t) => CommitPatchRefines(s, t);
    case DoDelete(t, op) => DeleteRefines(s, t, op);
    case LockProject(t, op) => LockProjectRefines(s, t, op);
    case LockDraft(t) => LockDraftRefines(s, t);
    case Compare(t) => CompareRefines(s, t);
    case ListDirectory(t) => ListRefines(s, t);
    case RemoveFile(t, name) => RemoveRefines(s, t, name);
    case WriteFile(t, name) => WriteRefines(s, t, name);
    case FlipStatus(t) => FlipKeepsInv(s, t);
    case CommitPublish(t) => CommitPublishRefines(s, t);
    case Abort(t) => AbortRefines(s, t);
    case _ => OnlyPhasesChange(s, step);
  }

  lemma OnlyPhasesChange(s: State, step: Step)
    requires step.AnswerDelete? || step.StartWriting? || step.BumpVersion?
    ensures Refines(s, Next(s, step))
  {
  }

  lemma NextKeepsInv(s: State, step: Step)
    requires Inv(s)
    ensures Inv(Next(s, step))
  {
    hide Inv, RowsOk, Refines;
    match step
    case DoCreate(op) => CreateKeepsInv(s, op);
    case BeginPatch(t, op) => BeginPatchKeepsInv(s, t, op);
    case CommitPatch(t) => CommitPatchKeepsInv(s, t);
    case DoDelete(t, op) => DeleteKeepsInv(s, t, op);
    case AnswerDelete(t) => AnswerDeleteKeepsInv(s, t);
    case LockProject(t, op) => LockProjectKeepsInv(s, t, op);
    case LockDraft(t) => LockDraftKeepsInv(s, t);
    case Compare(t) => CompareKeepsInv(s, t);
    case ListDirectory(t) => ListKeepsInv(s, t);
    case RemoveFile(t, name) => RemoveRefines(s, t, name);
    case StartWriting(t) => StartWritingKeepsInv(s, t);
    case WriteFile(t, name) => WriteRefines(s, t, name);
    case BumpVersion(t) => BumpKeepsInv(s, t);
    case FlipStatus(t) => FlipKeepsInv(s, t);
    case CommitPublish(t) => CommitPublishKeepsInv(s, t);
    case Abort(t) => AbortKeepsInv(s, t);
  }

  // ---- whole runs ----------------------------------------------------------------------------

  /** The world after the logged requests ran one at a time. */
  function Replay(w: World, log: seq<LogEntry>): World
  {
    if log == [] then w else Serial(Replay(w, log[..|log| - 1]), log[|log| - 1].op).0
  }

  /** Every caller was told what it would have been told had the requests run one at a time. */
  ghost predicate AnswersMatch(w: World, log: seq<LogEntry>)
  {
    forall i :: 0 <= i < |log| ==> Serial(Replay(w, log[..i]), log[i].op).1 == log[i].outcome
  }

  lemma {:induction false} RunKeepsInv(disk: map<ProjectId, Dir>, steps: seq<Step>)
    ensures Inv(Run(Initial(disk), steps))
  {
    if steps != [] {
      RunKeepsInv(disk, steps[..|steps| - 1]);
      NextRefines(Run(Initial(disk), steps[..|steps| - 1]), steps[|steps| - 1]);
    }
  }

  /** Every interleaving leaves the rows, versions and directories (apart from one being rewritten
      right now) that the logged requests leave when they run one at a time. */
  lemma {:induction false} RunRefinesSerial(disk: map<ProjectId, Dir>, steps: seq<Step>)
    ensures Abs(Run(Initial(disk), steps)) == Replay(Initial(disk).w, Run(Initial(disk), steps).log)
  {
    if steps == [] {
      assert Abs(Initial(disk)) == Initial(disk).w;
    } else {
      var s := Run(Initial(disk), steps[..|steps| - 1]);
      var s' := Next(s, steps[|steps| - 1]);
      RunRefinesSerial(disk, steps[..|steps| - 1]);
      RunKeepsInv(disk, steps[..|steps| - 1]);
      NextRefines(s, steps[|steps| - 1]);
      hide Inv, Next, Serial, Abs;
      assert s'.log != s.log ==> s'.log[..|s'.log| - 1] == s.log;
    }
  }

  /** ... and every caller was told what it would have been told then. */
  lemma {:induction false} RunAnswersMatch(disk: map<ProjectId, Dir>, steps: seq<Step>)
    ensures AnswersMatch(Initial(disk).w, Run(Initial(disk), steps).log)
  {
    var w := Initial(disk).w;
    if steps != [] {
      var s := Run(Initial(disk), steps[..|steps| - 1]);
      var s' := Next(s, steps[|steps| - 1]);
      RunAnswersMatch(disk, steps[..|steps| - 1]);
      RunRefinesSerial(disk, steps[..|steps| - 1]);
      RunKeepsInv(disk, steps[..|steps| - 1]);
      NextRefines(s, steps[|steps| - 1]);
      hide Inv, Next, Serial, Abs;
      if s'.log != s.log {
        forall i | 0 <= i < |s'.log|
          ensures Serial(Replay(w, s'.log[..i]), s'.log[i].op).1 == s'.log[i].outcome
        {
          if i < |s.log| {
            assert s'.log[..i] == s.log[..i] && s'.log[i] == s.log[i];
          } else {
            assert s'.log[..i] == s.log;
          }
        }
      }
    }
  }

  lemma {:induction false} ReplayKeepsInv(w: World, log: seq<LogEntry>)
    requires WorldInv(w)
    ensures WorldInv(Replay(w, log))
  {
    if log != [] {
      ReplayKeepsInv(w, log[..|log| - 1]);
      SerialKeepsInv(Replay(w, log[..|log| - 1]), log[|log| - 1].op);
    }
  }

  /** The files of the draft published last are the ones in `specs/`. */
  ghost predicate ShowsNewest(s: State, p: ProjectId, k: int, d: DraftId)
  {
    (p in s.w.disk && p !in s.w.broken && p !in s.saved && p in s.w.versions
     && k + 1 == s.w.versions[p] && PublishedAt(s.w, p, k, d))
    ==>
      && Regular(s.w.disk[p]) == Plain(s.w.drafts[d].files, s.w.disk[p])
      && (Regular(s.w.disk[p]) == s.w.drafts[d].files <==> s.w.drafts[d].files.Keys !! Links(s.w.disk[p]))
  }

  /** At every moment of every interleaving the public version of a project equals the number of its
      published drafts, whose base versions are 0..version-1, each once; and unless a publish of the
      project is writing or its last write was cut short, the regular files in its `specs/` are those
      of the draft with base version - 1, but for names that are links: all of them if and only if no
      name of that draft is one. */
  lemma RunKeepsPublicState(disk: map<ProjectId, Dir>, steps: seq<Step>)
    ensures
      var s := Run(Initial(disk), steps);
      && VersionsCountPublished(s.w)
      && (forall p :: p in s.w.versions ==> |PublishedDrafts(s.w, p)| == s.w.versions[p])
      && (forall p, k: int, d :: ShowsNewest(s, p, k, d))
  {
    var s := Run(Initial(disk), steps);
    RunRefinesSerial(disk, steps);
    InitialWorld(disk);
    ReplayKeepsInv(Initial(disk).w, s.log);
    hide Run, Replay, Initial;
    VersionsAreVisible(s);
    forall p, k: int, d
      ensures ShowsNewest(s, p, k, d)
    {
      NewestIsVisible(s, p, k, d);
    }
  }

  lemma VersionsAreVisible(s: State)
    requires WorldInv(Abs(s))
    ensures VersionsCountPublished(s.w)
    ensures forall p :: p in s.w.versions ==> |PublishedDrafts(s.w, p)| == s.w.versions[p]
  {
    var a := Abs(s);
    assert forall p, k: int, d :: PublishedAt(a, p, k, d) <==> PublishedAt(s.w, p, k, d);
    forall p, k: int | HasPublished(a, p, k)
      ensures HasPublished(s.w, p, k)
    {
      var d :| PublishedAt(a, p, k, d);
      assert PublishedAt(s.w, p, k, d);
    }
    forall p | p in s.w.versions
      ensures |PublishedDrafts(s.w, p)| == s.w.versions[p]
    {
      VersionIsPublishedCount(a, p);
      assert PublishedDrafts(s.w, p) == PublishedDrafts(a, p);
    }
  }

  lemma NewestIsVisible(s: State, p: ProjectId, k: int, d: DraftId)
    requires WorldInv(Abs(s))
    ensures ShowsNewest(s, p, k, d)
  {
    var a := Abs(s);
    if p in s.w.disk && p !in s.w.broken && p !in s.saved && p in s.w.versions && k + 1 == s.w.versions[p]
       && PublishedAt(s.w, p, k, d) {
      assert PublishedAt(a, p, k, d) && a.disk[p] == s.w.disk[p];
      PlainIsAllIff(s.w.drafts[d].files, s.w.disk[p]);
    }
  }

  /** The version and the files of a conflict answer belong together: at the moment the request takes
      effect that version is current and those files are the regular ones its newest publish put there. */
  lemma ConflictBodyIsConsistent(disk: map<ProjectId, Dir>, steps: seq<Step>, i: nat, k: int, d: DraftId)
    requires i < |Run(Initial(disk), steps).log|
    requires
      var e := Run(Initial(disk), steps).log[i];
      e.op.Publish? && e.outcome.Conflict?
    ensures
      var log := Run(Initial(disk), steps).log;
      var w, p := Replay(Initial(disk).w, log[..i]), log[i].op.project;
      && p in w.versions && log[i].outcome.currentVersion == w.versions[p]
      && (p !in w.broken && k + 1 == w.versions[p] && PublishedAt(w, p, k, d) ==>
            p in w.disk && log[i].outcome.currentFiles == Plain(w.drafts[d].files, w.disk[p]))
  {
    var log := Run(Initial(disk), steps).log;
    RunAnswersMatch(disk, steps);
    InitialWorld(disk);
    ReplayKeepsInv(Initial(disk).w, log[..i]);
    hide Run, Replay, Initial;
    var w := Replay(Initial(disk).w, log[..i]);
    assert Serial(w, log[i].op).1 == log[i].outcome;
    hide VersionsCountPublished;
  }

  /** Once published, a draft's row and files are the same for the rest of the run. */
  lemma {:induction false} RunKeepsPublished(disk: map<ProjectId, Dir>, steps: seq<Step>, i: nat, d: DraftId)
    requires i <= |steps|
    requires d in Run(Initial(disk), steps[..i]).w.drafts
    requires Run(Initial(disk), steps[..i]).w.drafts[d].status == Published
    ensures d in Run(Initial(disk), steps).w.drafts
    ensures Run(Initial(disk), steps).w.drafts[d] == Run(Initial(disk), steps[..i]).w.drafts[d]
    decreases |steps|
  {
    if i == |steps| {
      assert steps[..i] == steps;
    } else {
      var shorter := steps[..|steps| - 1];
      assert shorter[..i] == steps[..i];
      RunKeepsPublished(disk, shorter, i, d);
      RunKeepsInv(disk, shorter);
      var s := Run(Initial(disk), shorter);
      NextRefines(s, steps[|steps| - 1]);
      var s' := Next(s, steps[|steps| - 1]);
      if s'.log != s.log {
        SerialKeepsPublished(Abs(s), s'.log[|s.log|].op, d);
      }
      assert Abs(s').drafts == s'.w.drafts && Abs(s).drafts == s.w.drafts;
    }
  }

  /** The "no longer in 'draft' status" throw of publish is unreachable. */
  lemma FlipNeverMisses(disk: map<ProjectId, Dir>, steps: seq<Step>, t: TxId)
    requires Publishing(Run(Initial(disk), steps), t) && Run(Initial(disk), steps).txs[t].phase.Bumped?
    ensures FlipAffectsRow(Run(Initial(disk), steps), Run(Initial(disk), steps).txs[t].op)
  {
    RunKeepsInv(disk, steps);
    FlipAffectsOneRow(Run(Initial(disk), steps), t);
  }

  /** The query after an empty DELETE, whenever it runs, gives the answer the log recorded. */
  lemma DeleteAnswerIsStable(disk: map<ProjectId, Dir>, steps: seq<Step>, t: TxId)
    requires t in Run(Initial(disk), steps).txs && Run(Initial(disk), steps).txs[t].DeleteMissed?
    ensures
      var s := Run(Initial(disk), steps);
      s.txs[t].op.Delete? && s.txs[t].answer == DeleteMissAnswer(s.w.drafts, s.txs[t].op)
  {
    RunKeepsInv(disk, steps);
    var s := Run(Initial(disk), steps);
    assert TxOk(s.w, s.saved, s.txs[t]);
  }

  // ---- nobody waits for ever -------------------------------------------------------------------

  /** A step of the open transaction `t` itself; giving up counts only where a write meets a directory. */
  predicate OwnStep(s: State, t: TxId, step: Step)
  {
    match step
    case CommitPatch(u) => u == t
    case AnswerDelete(u) => u == t
    case LockDraft(u) => u == t
    case Compare(u) => u == t
    case ListDirectory(u) => u == t
    case RemoveFile(u, _) => u == t
    case StartWriting(u) => u == t
    case WriteFile(u, _) => u == t
    case BumpVersion(u) => u == t
    case FlipStatus(u) => u == t
    case CommitPublish(u) => u == t
    case Abort(u) => u == t && MeetsDirectory(s, t)
    case _ => false
  }

  predicate MeetsDirectory(s: State, t: TxId)
  {
    Publishing(s, t) && s.txs[t].phase.Writing? && !(s.txs[t].phase.todo !! Directories(s.w.disk[s.txs[t].op.project]))
  }

  ghost predicate CanGoOn(s: State, t: TxId)
  {
    exists step :: OwnStep(s, t, step) && Next(s, step) != s
  }

  /** A publish that holds its project and wants the row of its draft, which the patch `u` holds. */
  predicate WaitsForPatch(s: State, t: TxId, u: TxId)
  {
    && Publishing(s, t) && s.txs[t].phase.ProjectLocked?
    && u in s.txs && s.txs[u].PatchTx? && LockedDraft(s.txs[u]) == Some(s.txs[t].op.draft)
  }

  lemma PatchGoesOn(s: State, t: TxId)
    requires t in s.txs && s.txs[t].PatchTx? && s.txs[t].op.Patch?
    ensures CanGoOn(s, t)
  {
    assert |Next(s, CommitPatch(t)).log| == |s.log| + 1;
  }

  /** Whoever else holds the row of the draft a publish wants is a patch: another publish would belong to
      the same project, whose row only one can hold. */
  lemma HolderIsPatch(s: State, t: TxId, u: TxId)
    requires Inv(s) && Publishing(s, t) && s.txs[t].phase.ProjectLocked?
    requires Editable(s.w.drafts, s.txs[t].op.draft, s.txs[t].op.project, s.txs[t].op.owner)
    requires u in s.txs && LockedDraft(s.txs[u]) == Some(s.txs[t].op.draft)
    ensures WaitsForPatch(s, t, u)
  {
    assert TxOk(s.w, s.saved, s.txs[u]);
    assert u != t && Apart(s.txs[t], s.txs[u]);
  }

  lemma WantingGoesOn(s: State, t: TxId)
    requires Inv(s) && Publishing(s, t) && s.txs[t].phase.ProjectLocked?
    ensures CanGoOn(s, t) || exists u :: WaitsForPatch(s, t, u)
  {
    var op := s.txs[t].op;
    var s' := Next(s, LockDraft(t));
    if !Editable(s.w.drafts, op.draft, op.project, op.owner) {
      assert |s'.log| == |s.log| + 1;
    } else if DraftFree(s, op.draft) {
      assert s'.txs[t].phase.DraftLocked?;
    } else {
      var u :| u in s.txs && LockedDraft(s.txs[u]) == Some(op.draft);
      HolderIsPatch(s, t, u);
    }
  }

  lemma WriterGoesOn(s: State, t: TxId)
    requires Publishing(s, t) && s.txs[t].phase.Writing? && TxOk(s.w, s.saved, s.txs[t])
    ensures CanGoOn(s, t)
  {
    var phase, dir := s.txs[t].phase, s.w.disk[s.txs[t].op.project];
    if phase.todo == {} {
      assert Next(s, BumpVersion(t)).txs[t].phase.Bumped?;
    } else if phase.todo !! Directories(dir) {
      var name :| name in phase.todo;
      assert name !in Next(s, WriteFile(t, name)).txs[t].phase.todo;
    } else {
      assert |Next(s, Abort(t)).log| == |s.log| + 1;
      assert OwnStep(s, t, Abort(t));
    }
  }

  lemma CompareGoesOn(s: State, t: TxId)
    requires Publishing(s, t) && s.txs[t].phase.DraftLocked? && TxOk(s.w, s.saved, s.txs[t])
    ensures CanGoOn(s, t)
  {
    var tx, s' := s.txs[t], Next(s, Compare(t));
    if tx.phase.baseVersion != tx.version || !AllFlat(s.w.drafts[tx.op.draft].files.Keys) {
      assert |s'.log| == |s.log| + 1;
    } else {
      assert s'.txs[t].phase.FilesRead?;
    }
  }

  lemma RemoverGoesOn(s: State, t: TxId)
    requires Publishing(s, t) && s.txs[t].phase.Removing?
    ensures CanGoOn(s, t)
  {
    var obsolete := s.txs[t].phase.obsolete;
    if obsolete == {} {
      assert Next(s, StartWriting(t)).txs[t].phase.Writing?;
    } else {
      var name :| name in obsolete;
      assert name !in Next(s, RemoveFile(t, name)).txs[t].phase.obsolete;
    }
  }

  lemma FinisherGoesOn(s: State, t: TxId)
    requires Publishing(s, t) && (s.txs[t].phase.FilesRead? || s.txs[t].phase.Bumped? || s.txs[t].phase.Flipped?)
    requires s.txs[t].phase.Bumped? ==> FlipAffectsRow(s, s.txs[t].op)
    ensures CanGoOn(s, t)
  {
    match s.txs[t].phase
    case FilesRead(_) => assert Next(s, ListDirectory(t)).txs[t].phase.Removing?;
    case Bumped(_) => assert Next(s, FlipStatus(t)).txs[t].phase.Flipped?;
    case Flipped(_, _) => assert |Next(s, CommitPublish(t)).log| == |s.log| + 1;
  }

  lemma PublishGoesOn(s: State, t: TxId)
    requires Inv(s) && Publishing(s, t) && !s.txs[t].phase.ProjectLocked?
    ensures CanGoOn(s, t)
  {
    assert TxOk(s.w, s.saved, s.txs[t]);
    if s.txs[t].phase.Bumped? {
      FlipAffectsOneRow(s, t);
    }
    hide Inv, TxOk, CanGoOn;
    match s.txs[t].phase
    case DraftLocked(_) => CompareGoesOn(s, t);
    case Removing(_, _) => RemoverGoesOn(s, t);
    case Writing(_, _) => WriterGoesOn(s, t);
    case _ => FinisherGoesOn(s, t);
  }

  /** The two row locks never leave transactions stuck: in every reachable state every open transaction can
      go on, or wants the row of a draft that an open patch holds, and that patch can commit. */
  lemma TransactionsGoOn(disk: map<ProjectId, Dir>, steps: seq<Step>, t: TxId)
    requires t in Run(Initial(disk), steps).txs
    ensures
      var s := Run(Initial(disk), steps);
      CanGoOn(s, t) || exists u :: WaitsForPatch(s, t, u) && CanGoOn(s, u)
  {
    RunKeepsInv(disk, steps);
    var s := Run(Initial(disk), steps);
    hide Run;
    assert TxOk(s.w, s.saved, s.txs[t]);
    hide CanGoOn;
    if s.txs[t].PatchTx? {
      PatchGoesOn(s, t);
    } else if s.txs[t].DeleteMissed? {
      AnswerGoesOn(s, t);
    } else if s.txs[t].phase.ProjectLocked? {
      WantingGoesOn(s, t);
      if !CanGoOn(s, t) {
        var u :| WaitsForPatch(s, t, u);
        assert TxOk(s.w, s.saved, s.txs[u]);
        PatchGoesOn(s, u);
      }
    } else {
      PublishGoesOn(s, t);
    }
  }

  lemma AnswerGoesOn(s: State, t: TxId)
    requires t in s.txs && s.txs[t].DeleteMissed?
    ensures CanGoOn(s, t)
  {
    assert t !in Next(s, AnswerDelete(t)).txs;
  }
}
