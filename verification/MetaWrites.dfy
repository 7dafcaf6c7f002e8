/** The serialised writes to meta.json of `project-repository`: a chain of promises per project, each call
    a read and, later, a write.

    Call `i` makes two promises: `next`, which runs the operation when the promise found in the map has
    settled either way, and the one `next.finally(...)` returns, which goes into the map. */
module MetaWrites {
  import opened Options

  type Key = string

  // ---- the operations ---------------------------------------------------------------------------

  /** The `repository` field; `Other` is a value that is not a repository configuration. */
  datatype Repository = Config(url: string, branch: string, username: string, lastPushedAt: Option<string>) | Other

  datatype Meta = Meta(repository: Option<Repository>, fields: map<string, string>)

  /** `mutate` is None where it throws. */
  datatype Op =
    | SetLastPushedAt(iso: string)
    | SetRepository(url: string, branch: string, username: string)
    | ClearRepository
    | Mutate(mutate: Meta -> Option<Meta>)

  datatype Effect = Throws | Unchanged | Replace(meta: Meta)

  /** An operation on the file it read; None where there is no file. */
  function Apply(op: Op, file: Option<Meta>): Effect
  {
    match op
    case SetLastPushedAt(iso) =>
      if file.None? || file.value.repository.None? || file.value.repository.value.Other? then Unchanged
      else Replace(file.value.(repository := Some(file.value.repository.value.(lastPushedAt := Some(iso)))))
    case SetRepository(url, branch, username) =>
      if file.None? then Throws
      else Replace(file.value.(repository := Some(Config(url, branch, username, None))))
    case ClearRepository =>
      if file.None? || file.value.repository.None? then Unchanged
      else Replace(file.value.(repository := None))
    case Mutate(mutate) =>
      if file.None? || mutate(file.value).None? then Throws else Replace(mutate(file.value).value)
  }

  /** What the disk may refuse; `NoDirectory` is a write that fails with ENOENT. */
  datatype Fault = NoFault | ReadFault | WriteFault | NoDirectory

  /** The operations that take ENOENT for "nothing to do", whichever half it comes from. */
  predicate Swallows(op: Op)
  {
    op.SetLastPushedAt? || op.ClearRepository?
  }

  /** An operation run alone: the file afterwards, and whether its promise is fulfilled. */
  function Perform(op: Op, fault: Fault, file: Option<Meta>): (Option<Meta>, bool)
  {
    if fault.ReadFault? then (file, false)
    else
      match Apply(op, file)
      case Throws => (file, false)
      case Unchanged => (file, true)
      case Replace(meta) =>
        match fault
        case WriteFault => (file, false)
        case NoDirectory => (file, Swallows(op))
        case _ => (Some(meta), true)
  }

  /** What a call is for, field by field: the time of the push, the repository, its removal, or any change. */
  ghost predicate HasDone(op: Op, before: Option<Meta>, after: Option<Meta>)
  {
    match op
    case SetLastPushedAt(iso) =>
      if before.Some? && before.value.repository.Some? && before.value.repository.value.Config? then
        var r := before.value.repository.value;
        after == Some(Meta(Some(Config(r.url, r.branch, r.username, Some(iso))), before.value.fields))
      else after == before
    case SetRepository(url, branch, username) =>
      before.Some? && after == Some(Meta(Some(Config(url, branch, username, None)), before.value.fields))
    case ClearRepository =>
      if before.Some? then after == Some(Meta(None, before.value.fields)) else after == None
    case Mutate(mutate) => before.Some? && mutate(before.value).Some? && after == mutate(before.value)
  }

  /** It comes to its write. */
  predicate ToWrite(op: Op, before: Option<Meta>)
  {
    && before.Some?
    && (op.SetLastPushedAt? ==> before.value.repository.Some? && before.value.repository.value.Config?)
    && (op.ClearRepository? ==> before.value.repository.Some?)
    && (op.Mutate? ==> op.mutate(before.value).Some?)
  }

  /** Its promise is rejected: nothing to read, no file where one is needed, a change that throws, or a write that
      fails, unless ENOENT is taken for "nothing to do". */
  predicate IsRejected(op: Op, fault: Fault, before: Option<Meta>)
  {
    || fault.ReadFault?
    || (!ToWrite(op, before) && (op.SetRepository? || op.Mutate?))
    || (ToWrite(op, before) && fault.WriteFault?)
    || (ToWrite(op, before) && fault.NoDirectory? && (op.SetRepository? || op.Mutate?))
  }

  // ---- the machine ------------------------------------------------------------------------------

  datatype Phase =
    | Queued
    | HasRead(file: Option<Meta>)
    | Settled(ok: bool, fault: Fault)

  /** `prev` is the promise the map held, as the call it comes from; `cleaned` says that the `finally` of
      this call has run. */
  datatype Call = Call(key: Key, op: Op, prev: Option<nat>, phase: Phase, cleaned: bool)

  /** A promise in the map: the `next` of a call, or what its `finally` returned. */
  datatype Promise = NextOf(call: nat) | FinallyOf(call: nat)

  datatype State = State(writeQueues: map<Key, Promise>, calls: seq<Call>, files: map<Key, Meta>)

  datatype Step =
    | Enqueue(key: Key, op: Op)
    | Read(call: nat, fails: bool)
    | Write(call: nat, fault: Fault)
    | Clean(call: nat)

  predicate Init(s: State)
  {
    s.writeQueues == map[] && s.calls == []
  }

  function File(files: map<Key, Meta>, key: Key): Option<Meta>
  {
    if key in files then Some(files[key]) else None
  }

  function EnqueueStep(s: State, key: Key, op: Op): State
  {
    var prev := if key in s.writeQueues then Some(s.writeQueues[key].call) else None;
    s.(calls := s.calls + [Call(key, op, prev, Queued, false)],
       writeQueues := s.writeQueues[key := FinallyOf(|s.calls|)])
  }

  /** The promise the call waits for has settled. */
  predicate MayStart(s: State, i: nat)
    requires i < |s.calls|
  {
    s.calls[i].prev.None? || (s.calls[i].prev.value < |s.calls| && s.calls[s.calls[i].prev.value].cleaned)
  }

  function SetPhase(s: State, i: nat, phase: Phase): State
    requires i < |s.calls|
  {
    s.(calls := s.calls[i := s.calls[i].(phase := phase)])
  }

  function ReadStep(s: State, i: nat, fails: bool): State
  {
    if i >= |s.calls| || !s.calls[i].phase.Queued? || !MayStart(s, i) then s
    else if fails then SetPhase(s, i, Settled(false, ReadFault))
    else SetPhase(s, i, HasRead(File(s.files, s.calls[i].key)))
  }

  function WriteStep(s: State, i: nat, fault: Fault): State
  {
    if i >= |s.calls| || !s.calls[i].phase.HasRead? || fault.ReadFault? then s
    else
      match Apply(s.calls[i].op, s.calls[i].phase.file)
      case Throws => SetPhase(s, i, Settled(false, NoFault))
      case Unchanged => SetPhase(s, i, Settled(true, NoFault))
      case Replace(meta) =>
        if fault.NoFault? then SetPhase(s, i, Settled(true, NoFault)).(files := s.files[s.calls[i].key := meta])
        else SetPhase(s, i, Settled(fault.NoDirectory? && Swallows(s.calls[i].op), fault))
  }

  /** The callback of `finally`: it drops the map's entry if that is the `next` of this call. */
  function CleanStep(s: State, i: nat): State
  {
    if i >= |s.calls| || !s.calls[i].phase.Settled? || s.calls[i].cleaned then s
    else
      var key := s.calls[i].key;
      s.(calls := s.calls[i := s.calls[i].(cleaned := true)],
         writeQueues := if key in s.writeQueues && s.writeQueues[key] == NextOf(i)
                        then s.writeQueues - {key} else s.writeQueues)
  }

  function Next(s: State, step: Step): State
  {
    match step
    case Enqueue(key, op) => EnqueueStep(s, key, op)
    case Read(i, fails) => ReadStep(s, i, fails)
    case Write(i, fault) => WriteStep(s, i, fault)
    case Clean(i) => CleanStep(s, i)
  }

  function Run(s: State, steps: seq<Step>): State
    decreases |steps|
  {
    if steps == [] then s else Next(Run(s, steps[..|steps| - 1]), steps[|steps| - 1])
  }

  // ---- the module's state, as it is kept ----------------------------------------------------------

  /** The map of promises, the calls made so far, and the files. */
  class MetaStore {
    var writeQueues: map<Key, Promise>
    var calls: seq<Call>
    var files: map<Key, Meta>

    constructor (files: map<Key, Meta>)
      ensures Init(Model()) && this.files == files
    {
      writeQueues, calls, this.files := map[], [], files;
    }

    ghost function Model(): State
      reads this
    {
      State(writeQueues, calls, files)
    }

    method EnqueueMetaWrite(key: Key, op: Op)
      modifies this
      ensures Model() == EnqueueStep(old(Model()), key, op)
    {
      var prev := None;
      if key in writeQueues {
        prev := Some(writeQueues[key].call);
      }
      writeQueues := writeQueues[key := FinallyOf(|calls|)];
      calls := calls + [Call(key, op, prev, Queued, false)];
    }

    /** The first half of an operation, up to the end of `readMeta`. */
    method BeginOperation(i: nat, fails: bool)
      requires i < |calls| && calls[i].phase.Queued? && MayStart(Model(), i)
      modifies this
      ensures Model() == ReadStep(old(Model()), i, fails)
    {
      if fails {
        calls := calls[i := calls[i].(phase := Settled(false, ReadFault))];
      } else {
        var key := calls[i].key;
        calls := calls[i := calls[i].(phase := HasRead(if key in files then Some(files[key]) else None))];
      }
    }

    /** The second half, up to the end of `writeMeta` where there is one. */
    method EndOperation(i: nat, fault: Fault)
      requires i < |calls| && calls[i].phase.HasRead? && !fault.ReadFault?
      modifies this
      ensures Model() == WriteStep(old(Model()), i, fault)
    {
      match Apply(calls[i].op, calls[i].phase.file)
      case Throws => calls := calls[i := calls[i].(phase := Settled(false, NoFault))];
      case Unchanged => calls := calls[i := calls[i].(phase := Settled(true, NoFault))];
      case Replace(meta) =>
        if fault.NoFault? {
          files := files[calls[i].key := meta];
          calls := calls[i := calls[i].(phase := Settled(true, NoFault))];
        } else if fault.NoDirectory? && Swallows(calls[i].op) {
          calls := calls[i := calls[i].(phase := Settled(true, fault))];
        } else {
          calls := calls[i := calls[i].(phase := Settled(false, fault))];
        }
    }

    method Cleanup(i: nat)
      requires i < |calls| && calls[i].phase.Settled? && !calls[i].cleaned
      modifies this
      ensures Model() == CleanStep(old(Model()), i)
    {
      var key := calls[i].key;
      if key in writeQueues && writeQueues[key] == NextOf(i) {
        writeQueues := writeQueues - {key};
      }
      calls := calls[i := calls[i].(cleaned := true)];
    }
  }

  // ---- invariants -------------------------------------------------------------------------------

  /** The last of the first `n` calls for `key`. */
  function LastCall(calls: seq<Call>, n: nat, key: Key): (r: Option<nat>)
    requires n <= |calls|
    ensures r.Some? ==> r.value < n
  {
    if n == 0 then None else if calls[n - 1].key == key then Some(n - 1) else LastCall(calls, n - 1, key)
  }

  lemma {:induction false} LastCallMeans(calls: seq<Call>, n: nat, key: Key)
    requires n <= |calls|
    ensures
      var r := LastCall(calls, n, key);
      && (r.Some? ==> calls[r.value].key == key)
      && (forall i :: (if r.Some? then r.value + 1 else 0) <= i < n ==> calls[i].key != key)
  {
    if n > 0 && calls[n - 1].key != key {
      LastCallMeans(calls, n - 1, key);
    }
  }

  /** Every call waits for the one before it for the same project, and the map holds the `finally` promise of
      the last one. */
  ghost predicate ChainsOk(s: State)
  {
    && (forall i :: 0 <= i < |s.calls| ==> s.calls[i].prev == LastCall(s.calls, i, s.calls[i].key))
    && (forall key :: key in s.writeQueues <==> LastCall(s.calls, |s.calls|, key).Some?)
    && (forall key :: key in s.writeQueues ==>
          s.writeQueues[key] == FinallyOf(LastCall(s.calls, |s.calls|, key).value))
  }

  /** A call has begun only if all earlier ones for its project are over. */
  ghost predicate InTurn(s: State)
  {
    && (forall i :: 0 <= i < |s.calls| && s.calls[i].cleaned ==> s.calls[i].phase.Settled?)
    && (forall i, j :: 0 <= i < j < |s.calls| && s.calls[i].key == s.calls[j].key && !s.calls[j].phase.Queued? ==>
          s.calls[i].cleaned)
  }

  /** The file of `key` after the settled ones among the first `n` calls, performed one by one. */
  function Serial(calls: seq<Call>, n: nat, key: Key, file: Option<Meta>): Option<Meta>
    requires n <= |calls|
  {
    if n == 0 then file
    else
      var before := Serial(calls, n - 1, key, file);
      if calls[n - 1].key == key && calls[n - 1].phase.Settled?
      then Perform(calls[n - 1].op, calls[n - 1].phase.fault, before).0
      else before
  }

  /** The files are what the settled calls, one by one, leave. */
  ghost predicate FilesAgree(init: State, s: State)
  {
    forall key :: File(s.files, key) == Serial(s.calls, |s.calls|, key, File(init.files, key))
  }

  /** The file a call finds when its turn comes. */
  function Found(init: State, s: State, i: nat): Option<Meta>
    requires i < |s.calls|
  {
    Serial(s.calls, i, s.calls[i].key, File(init.files, s.calls[i].key))
  }

  /** A call in the middle has read just that, and one that is over has answered accordingly. */
  ghost predicate AnswersOk(init: State, s: State)
  {
    && (forall i :: 0 <= i < |s.calls| && s.calls[i].phase.HasRead? ==> s.calls[i].phase.file == Found(init, s, i))
    && (forall i :: 0 <= i < |s.calls| && s.calls[i].phase.Settled? ==>
          s.calls[i].phase.ok == Perform(s.calls[i].op, s.calls[i].phase.fault, Found(init, s, i)).1)
  }

  ghost predicate FilesOk(init: State, s: State)
  {
    FilesAgree(init, s) && AnswersOk(init, s)
  }

  lemma {:induction false} LastCallSame(calls: seq<Call>, calls': seq<Call>, n: nat, key: Key)
    requires n <= |calls| && n <= |calls'| && forall i :: 0 <= i < n ==> calls'[i].key == calls[i].key
    ensures LastCall(calls', n, key) == LastCall(calls, n, key)
  {
    if n > 0 {
      LastCallSame(calls, calls', n - 1, key);
    }
  }

  /** Neither call is over, or both have ended alike. */
  ghost predicate SameEffect(a: Call, b: Call)
  {
    (!a.phase.Settled? && !b.phase.Settled?) || (a.phase == b.phase && a.op == b.op)
  }

  lemma {:induction false} SerialSame(calls: seq<Call>, calls': seq<Call>, n: nat, key: Key, file: Option<Meta>)
    requires n <= |calls| && n <= |calls'|
    requires forall i :: 0 <= i < n && (calls[i].key == key || calls'[i].key == key) ==>
               calls'[i].key == calls[i].key && SameEffect(calls[i], calls'[i])
    ensures Serial(calls', n, key, file) == Serial(calls, n, key, file)
  {
    if n > 0 {
      SerialSame(calls, calls', n - 1, key, file);
    }
  }

  /** Calls that are not over do not show. */
  lemma {:induction false} SerialStops(calls: seq<Call>, i: nat, n: nat, key: Key, file: Option<Meta>)
    requires i <= n <= |calls| && forall j :: i <= j < n && calls[j].key == key ==> !calls[j].phase.Settled?
    ensures Serial(calls, n, key, file) == Serial(calls, i, key, file)
  {
    if i < n {
      SerialStops(calls, i, n - 1, key, file);
    }
  }

  lemma LastCallAppend(calls: seq<Call>, call: Call, n: nat, key: Key)
    requires n <= |calls|
    ensures LastCall(calls + [call], n, key) == LastCall(calls, n, key)
    ensures LastCall(calls + [call], |calls| + 1, key) ==
            if key == call.key then Some(|calls|) else LastCall(calls, |calls|, key)
  {
    LastCallSame(calls, calls + [call], n, key);
    LastCallSame(calls, calls + [call], |calls|, key);
  }

  lemma EnqueueKeepsChains(s: State, key: Key, op: Op)
    requires ChainsOk(s)
    ensures ChainsOk(EnqueueStep(s, key, op))
  {
    hide LastCall;
    var s' := EnqueueStep(s, key, op);
    forall n, k | 0 <= n <= |s.calls|
      ensures LastCall(s'.calls, n, k) == LastCall(s.calls, n, k)
      ensures LastCall(s'.calls, |s.calls| + 1, k) ==
              if k == key then Some(|s.calls|) else LastCall(s.calls, |s.calls|, k)
    {
      LastCallAppend(s.calls, s'.calls[|s.calls|], n, k);
    }
  }

  lemma SameKeysKeepChains(s: State, s': State)
    requires ChainsOk(s) && s'.writeQueues == s.writeQueues && |s'.calls| == |s.calls|
    requires forall i :: 0 <= i < |s.calls| ==> s'.calls[i].key == s.calls[i].key && s'.calls[i].prev == s.calls[i].prev
    ensures ChainsOk(s')
  {
    forall n, k | 0 <= n <= |s.calls|
      ensures LastCall(s'.calls, n, k) == LastCall(s.calls, n, k)
    {
      LastCallSame(s.calls, s'.calls, n, k);
    }
    hide LastCall;
  }

  lemma NextKeepsChains(s: State, step: Step)
    requires ChainsOk(s)
    ensures ChainsOk(Next(s, step))
    ensures forall key :: key in s.writeQueues ==> key in Next(s, step).writeQueues
  {
    hide LastCall, ChainsOk, Apply;
    match step
    case Enqueue(key, op) => EnqueueKeepsChains(s, key, op);
    case Read(i, fails) => SameKeysKeepChains(s, ReadStep(s, i, fails));
    case Write(i, fault) => SameKeysKeepChains(s, WriteStep(s, i, fault));
    case Clean(i) =>
      CleanRemovesNothing(s, i);
      SameKeysKeepChains(s, CleanStep(s, i));
  }

  /** The map holds `finally` promises only, so the test for the call's own `next` never succeeds. */
  lemma CleanRemovesNothing(s: State, i: nat)
    requires ChainsOk(s)
    ensures CleanStep(s, i).writeQueues == s.writeQueues
  {
    hide LastCall;
  }

  lemma ReadInTurn(s: State, i: nat)
    requires ChainsOk(s) && InTurn(s) && i < |s.calls| && MayStart(s, i)
    ensures forall j :: 0 <= j < i && s.calls[j].key == s.calls[i].key ==> s.calls[j].cleaned
  {
    hide InTurn, LastCall;
    var last := LastCall(s.calls, i, s.calls[i].key);
    assert s.calls[i].prev == last;
    LastCallMeans(s.calls, i, s.calls[i].key);
    hide ChainsOk;
    if last.Some? {
      EarlierAreOver(s, last.value);
    }
  }

  lemma EarlierAreOver(s: State, i: nat)
    requires InTurn(s) && i < |s.calls| && s.calls[i].cleaned
    ensures forall j :: 0 <= j < i && s.calls[j].key == s.calls[i].key ==> s.calls[j].cleaned
  {
  }

  lemma NextKeepsTurns(s: State, step: Step)
    requires ChainsOk(s) && InTurn(s)
    ensures InTurn(Next(s, step))
  {
    hide ChainsOk, InTurn, ReadStep, WriteStep, CleanStep, EnqueueStep;
    match step
    case Enqueue(key, op) => EnqueueKeepsTurns(s, key, op);
    case Read(i, fails) => ReadKeepsTurns(s, i, fails);
    case Write(i, fault) => WriteKeepsTurns(s, i, fault);
    case Clean(i) => CleanKeepsTurns(s, i);
  }

  lemma EnqueueKeepsTurns(s: State, key: Key, op: Op)
    requires InTurn(s)
    ensures InTurn(EnqueueStep(s, key, op))
  {
  }

  lemma ReadKeepsTurns(s: State, i: nat, fails: bool)
    requires ChainsOk(s) && InTurn(s)
    ensures InTurn(ReadStep(s, i, fails))
  {
    if i < |s.calls| && s.calls[i].phase.Queued? && MayStart(s, i) {
      ReadInTurn(s, i);
      hide ChainsOk, MayStart, InTurn, File;
      PhaseKeepsTurns(s, i, if fails then Settled(false, ReadFault) else HasRead(File(s.files, s.calls[i].key)));
    }
  }

  lemma WriteKeepsTurns(s: State, i: nat, fault: Fault)
    requires InTurn(s)
    ensures InTurn(WriteStep(s, i, fault))
  {
    hide Apply;
    if i < |s.calls| && s.calls[i].phase.HasRead? && !fault.ReadFault? {
      assert forall j :: 0 <= j < i && s.calls[j].key == s.calls[i].key ==> s.calls[j].cleaned;
      hide InTurn;
      PhaseKeepsTurns(s, i, WriteStep(s, i, fault).calls[i].phase);
      assert WriteStep(s, i, fault).calls == SetPhase(s, i, WriteStep(s, i, fault).calls[i].phase).calls;
      SameCallsInTurn(SetPhase(s, i, WriteStep(s, i, fault).calls[i].phase), WriteStep(s, i, fault));
    }
  }

  lemma SameCallsInTurn(s: State, s': State)
    requires InTurn(s) && s'.calls == s.calls
    ensures InTurn(s')
  {
  }

  lemma CleanKeepsTurns(s: State, i: nat)
    requires InTurn(s)
    ensures InTurn(CleanStep(s, i))
  {
  }

  /** Behind a call that is not over, every call for its project waits. */
  lemma LaterOnesWait(s: State, i: nat)
    requires InTurn(s) && i < |s.calls| && !s.calls[i].phase.Settled?
    ensures forall j :: i < j < |s.calls| && s.calls[j].key == s.calls[i].key ==> s.calls[j].phase.Queued?
  {
    assert !s.calls[i].cleaned;
  }

  lemma PhaseKeepsTurns(s: State, i: nat, phase: Phase)
    requires InTurn(s) && i < |s.calls| && !s.calls[i].phase.Settled? && !phase.Queued?
    requires forall j :: 0 <= j < i && s.calls[j].key == s.calls[i].key ==> s.calls[j].cleaned
    ensures InTurn(SetPhase(s, i, phase))
  {
  }

  lemma AppendKeepsFiles(init: State, s: State, key: Key, op: Op)
    requires FilesOk(init, s)
    ensures FilesOk(init, EnqueueStep(s, key, op))
  {
    var s' := EnqueueStep(s, key, op);
    forall n, k, file | 0 <= n <= |s.calls|
      ensures Serial(s'.calls, n, k, file) == Serial(s.calls, n, k, file)
    {
      SerialSame(s.calls, s'.calls, n, k, file);
    }
    hide Perform;
  }

  /** Marking a call changes nothing that shows, as long as it is over before and after, or neither. */
  lemma MarkKeepsFiles(init: State, s: State, i: nat, call: Call)
    requires FilesOk(init, s) && i < |s.calls| && call.key == s.calls[i].key && call.op == s.calls[i].op
    requires call.phase == s.calls[i].phase || (!call.phase.Settled? && !s.calls[i].phase.Settled?)
    requires call.phase.HasRead? ==>
               call.phase.file == Serial(s.calls, i, call.key, File(init.files, call.key))
    ensures FilesOk(init, s.(calls := s.calls[i := call]))
  {
    var calls' := s.calls[i := call];
    forall n, k, file | 0 <= n <= |s.calls|
      ensures Serial(calls', n, k, file) == Serial(s.calls, n, k, file)
    {
      SerialSame(s.calls, calls', n, k, file);
    }
    hide Perform, Serial;
  }

  /** An operation that ends after all earlier and before all later ones of its project. */
  lemma SettleKeepsFiles(init: State, s: State, i: nat, ok: bool, fault: Fault, files: map<Key, Meta>)
    requires FilesOk(init, s) && InTurn(s) && i < |s.calls| && !s.calls[i].phase.Settled?
    requires
      var key := s.calls[i].key;
      var result := Perform(s.calls[i].op, fault, Serial(s.calls, i, key, File(init.files, key)));
      && ok == result.1 && File(files, key) == result.0
      && forall k :: k != key ==> File(files, k) == File(s.files, k)
    ensures FilesOk(init, SetPhase(s, i, Settled(ok, fault)).(files := files))
  {
    var key := s.calls[i].key;
    var s' := SetPhase(s, i, Settled(ok, fault)).(files := files);
    LaterOnesWait(s, i);
    hide InTurn, Serial, Perform, File;
    SettledShows(s.calls, i, Settled(ok, fault));
    assert s'.calls == s.calls[i := s.calls[i].(phase := Settled(ok, fault))] && s'.files == files;
    hide SetPhase;
    assert FilesAgree(init, s') by {
      hide AnswersOk;
    }
    hide FilesAgree;
    SettledAnswers(init, s, s', i, ok, fault);
  }

  lemma SettledAnswers(init: State, s: State, s': State, i: nat, ok: bool, fault: Fault)
    requires AnswersOk(init, s) && i < |s.calls| && s'.calls == s.calls[i := s.calls[i].(phase := Settled(ok, fault))]
    requires ok == Perform(s.calls[i].op, fault, Found(init, s, i)).1
    requires forall n, k, file :: 0 <= n <= |s.calls| && (n <= i || k != s.calls[i].key) ==>
               Serial(s'.calls, n, k, file) == Serial(s.calls, n, k, file)
    requires forall j :: i < j < |s.calls| && s.calls[j].key == s.calls[i].key ==> s.calls[j].phase.Queued?
    ensures AnswersOk(init, s')
  {
    hide Serial, Perform, File;
    forall j | 0 <= j < |s.calls| && (j <= i || s.calls[j].key != s.calls[i].key)
      ensures Found(init, s', j) == Found(init, s, j)
    {
    }
    hide Found;
  }

  /** With only waiting calls of its project behind it, a call that ends performs its operation last. */
  lemma SettledShows(calls: seq<Call>, i: nat, phase: Phase)
    requires i < |calls| && !calls[i].phase.Settled? && phase.Settled?
    requires forall j :: i < j < |calls| && calls[j].key == calls[i].key ==> calls[j].phase.Queued?
    ensures
      var after, key := calls[i := calls[i].(phase := phase)], calls[i].key;
      && (forall n, k, file :: 0 <= n <= |calls| && (n <= i || k != key) ==>
          Serial(after, n, k, file) == Serial(calls, n, k, file))
      && (forall file ::
          Serial(after, |calls|, key, file) == Perform(calls[i].op, phase.fault, Serial(calls, i, key, file)).0)
  {
    var after, key := calls[i := calls[i].(phase := phase)], calls[i].key;
    forall n, k, file | 0 <= n <= |calls| && (n <= i || k != key)
      ensures Serial(after, n, k, file) == Serial(calls, n, k, file)
    {
      SerialSame(calls, after, n, k, file);
    }
    forall file
      ensures Serial(after, |calls|, key, file) == Perform(calls[i].op, phase.fault, Serial(calls, i, key, file)).0
    {
      SerialStops(after, i + 1, |calls|, key, file);
      SerialSame(calls, after, i, key, file);
      hide Perform;
    }
  }

  lemma ReadKeepsFiles(init: State, s: State, i: nat, fails: bool)
    requires FilesOk(init, s) && InTurn(s)
    ensures FilesOk(init, ReadStep(s, i, fails))
  {
    hide MayStart;
    if i < |s.calls| && s.calls[i].phase.Queued? && MayStart(s, i) {
      var key := s.calls[i].key;
      LaterOnesWait(s, i);
      hide InTurn;
      SerialStops(s.calls, i, |s.calls|, key, File(init.files, key));
      assert File(s.files, key) == Serial(s.calls, i, key, File(init.files, key));
      hide FilesOk, Serial;
      if fails {
        SettleKeepsFiles(init, s, i, false, ReadFault, s.files);
      } else {
        MarkKeepsFiles(init, s, i, s.calls[i].(phase := HasRead(File(s.files, key))));
      }
    }
  }

  lemma WriteKeepsFiles(init: State, s: State, i: nat, fault: Fault)
    requires FilesOk(init, s) && InTurn(s)
    ensures FilesOk(init, WriteStep(s, i, fault))
  {
    if i < |s.calls| && s.calls[i].phase.HasRead? && !fault.ReadFault? {
      var key, file := s.calls[i].key, s.calls[i].phase.file;
      assert file == Serial(s.calls, i, key, File(init.files, key));
      LaterOnesWait(s, i);
      hide InTurn;
      SerialStops(s.calls, i, |s.calls|, key, File(init.files, key));
      assert File(s.files, key) == file;
      hide FilesOk, Serial;
      match Apply(s.calls[i].op, file)
      case Throws => SettleKeepsFiles(init, s, i, false, NoFault, s.files);
      case Unchanged => SettleKeepsFiles(init, s, i, true, NoFault, s.files);
      case Replace(meta) =>
        if fault.NoFault? {
          SettleKeepsFiles(init, s, i, true, NoFault, s.files[key := meta]);
        } else {
          SettleKeepsFiles(init, s, i, fault.NoDirectory? && Swallows(s.calls[i].op), fault, s.files);
        }
    }
  }

  lemma NextKeepsFiles(init: State, s: State, step: Step)
    requires FilesOk(init, s) && ChainsOk(s) && InTurn(s)
    ensures FilesOk(init, Next(s, step))
  {
    hide FilesOk, ChainsOk, InTurn;
    match step
    case Enqueue(key, op) => AppendKeepsFiles(init, s, key, op);
    case Read(i, fails) => ReadKeepsFiles(init, s, i, fails);
    case Write(i, fault) => WriteKeepsFiles(init, s, i, fault);
    case Clean(i) =>
      if i < |s.calls| && s.calls[i].phase.Settled? && !s.calls[i].cleaned {
        MarkKeepsFiles(init, s, i, s.calls[i].(cleaned := true));
        CleanRemovesNothing(s, i);
      }
  }

  lemma {:induction false} RunKeepsInv(init: State, steps: seq<Step>)
    requires Init(init)
    ensures ChainsOk(Run(init, steps)) && InTurn(Run(init, steps)) && FilesOk(init, Run(init, steps))
    decreases |steps|
  {
    if steps != [] {
      RunKeepsInv(init, steps[..|steps| - 1]);
      var s := Run(init, steps[..|steps| - 1]);
      hide ChainsOk, InTurn, FilesOk, Next;
      NextKeepsChains(s, steps[|steps| - 1]);
      NextKeepsTurns(s, steps[|steps| - 1]);
      NextKeepsFiles(init, s, steps[|steps| - 1]);
    }
  }

  // ---- what it comes to -------------------------------------------------------------------------

  /** A call as its outcome shows it. */
  datatype Outcome = Outcome(op: Op, fault: Fault)

  /** The calls for `key` that are over, in the order they were made. */
  function Over(calls: seq<Call>, key: Key): seq<Outcome>
  {
    if calls == [] then []
    else
      var last := calls[|calls| - 1];
      Over(calls[..|calls| - 1], key)
      + if last.key == key && last.phase.Settled? then [Outcome(last.op, last.phase.fault)] else []
  }

  /** One at a time. */
  function OneByOne(file: Option<Meta>, outcomes: seq<Outcome>): Option<Meta>
  {
    if outcomes == [] then file
    else
      var last := outcomes[|outcomes| - 1];
      Perform(last.op, last.fault, OneByOne(file, outcomes[..|outcomes| - 1])).0
  }

  lemma NobodyIsOver(calls: seq<Call>, key: Key, file: Option<Meta>)
    ensures OneByOne(file, Over(calls[..0], key)) == file
  {
  }

  lemma OneMoreOver(calls: seq<Call>, n: nat, key: Key, file: Option<Meta>)
    requires 0 < n <= |calls|
    ensures
      var earlier, last := OneByOne(file, Over(calls[..n - 1], key)), calls[n - 1];
      OneByOne(file, Over(calls[..n], key)) ==
      if last.key == key && last.phase.Settled? then Perform(last.op, last.phase.fault, earlier).0 else earlier
  {
    assert calls[..n][..n - 1] == calls[..n - 1];
    var earlier, last := Over(calls[..n - 1], key), calls[n - 1];
    assert Over(calls[..n], key) ==
           earlier + if last.key == key && last.phase.Settled? then [Outcome(last.op, last.phase.fault)] else [];
    hide Over, Perform;
    assert earlier + [] == earlier;
    hide OneByOne;
    if last.key == key && last.phase.Settled? {
      LastOutcome(file, earlier, Outcome(last.op, last.phase.fault));
    }
  }

  lemma LastOutcome(file: Option<Meta>, earlier: seq<Outcome>, last: Outcome)
    ensures OneByOne(file, earlier + [last]) == Perform(last.op, last.fault, OneByOne(file, earlier)).0
  {
    assert (earlier + [last])[..|earlier|] == earlier;
    hide Perform;
  }

  lemma {:induction false} SerialIsOneByOne(calls: seq<Call>, n: nat, key: Key, file: Option<Meta>)
    requires n <= |calls|
    ensures Serial(calls, n, key, file) == OneByOne(file, Over(calls[..n], key))
  {
    hide Perform, Over, OneByOne;
    if n == 0 {
      NobodyIsOver(calls, key, file);
    } else {
      SerialIsOneByOne(calls, n - 1, key, file);
      OneMoreOver(calls, n, key, file);
    }
  }

  /** The file of `key` after its finished calls among the first `n`, performed one at a time. */
  function Alone(init: State, s: State, key: Key, n: nat): Option<Meta>
    requires n <= |s.calls|
  {
    OneByOne(File(init.files, key), Over(s.calls[..n], key))
  }

  /** What call `i` answered and did is what it would alone, after the calls made before it. */
  ghost predicate AsIfAlone(init: State, s: State, i: nat)
    requires i < |s.calls|
  {
    var call, key := s.calls[i], s.calls[i].key;
    call.phase.Settled? ==>
      && (Alone(init, s, key, i + 1), call.phase.ok) == Perform(call.op, call.phase.fault, Alone(init, s, key, i))
      && (!call.phase.ok ==> Alone(init, s, key, i + 1) == Alone(init, s, key, i))
      && (call.phase.ok ==>
            || HasDone(call.op, Alone(init, s, key, i), Alone(init, s, key, i + 1))
            || (call.phase.fault.NoDirectory? && Alone(init, s, key, i + 1) == Alone(init, s, key, i)))
      && (call.phase.ok <==> !IsRejected(call.op, call.phase.fault, Alone(init, s, key, i)))
  }

  /** However the reads and writes of concurrent calls fall: every project's file is what its finished calls
      leave when performed one at a time in the order they were made; each promise is fulfilled or rejected as
      it would be then; a rejected call has changed nothing, and a fulfilled one has done its work unless it is one
      that swallows ENOENT and its directory was missing; and a call has begun only if all earlier ones
      for its project are over. */
  lemma WritesAreSerial(init: State, steps: seq<Step>, key: Key)
    requires Init(init)
    ensures
      var s := Run(init, steps);
      && File(s.files, key) == Alone(init, s, key, |s.calls|)
      && (forall i :: 0 <= i < |s.calls| ==> AsIfAlone(init, s, i))
      && (forall i, j :: 0 <= i < j < |s.calls| && s.calls[i].key == s.calls[j].key && !s.calls[j].phase.Queued? ==>
            s.calls[i].phase.Settled?)
  {
    RunKeepsInv(init, steps);
    var s := Run(init, steps);
    hide Run, Perform, Over, OneByOne, Serial;
    SerialIsAlone(init, s, key, |s.calls|);
    forall i | 0 <= i < |s.calls|
      ensures AsIfAlone(init, s, i)
    {
      AnswersAreAlone(init, s, i);
    }
    hide AsIfAlone;
  }

  lemma SerialIsAlone(init: State, s: State, key: Key, n: nat)
    requires n <= |s.calls|
    ensures Alone(init, s, key, n) == Serial(s.calls, n, key, File(init.files, key))
  {
    SerialIsOneByOne(s.calls, n, key, File(init.files, key));
  }

  lemma AnswersAreAlone(init: State, s: State, i: nat)
    requires AnswersOk(init, s) && i < |s.calls|
    ensures AsIfAlone(init, s, i)
  {
    var call := s.calls[i];
    SerialIsAlone(init, s, call.key, i);
    SerialIsAlone(init, s, call.key, i + 1);
    hide Alone;
    if call.phase.Settled? {
      assert call.phase.ok == Perform(call.op, call.phase.fault, Found(init, s, i)).1;
      AllOrNothing(call.op, call.phase.fault, Found(init, s, i));
      hide Perform;
    }
  }

  /** A failed call changes nothing, and a fulfilled one does all it was meant to or meets a missing directory. */
  lemma AllOrNothing(op: Op, fault: Fault, file: Option<Meta>)
    ensures !Perform(op, fault, file).1 ==> Perform(op, fault, file).0 == file
    ensures Perform(op, fault, file).1 ==>
              || HasDone(op, file, Perform(op, fault, file).0)
              || (fault.NoDirectory? && Perform(op, fault, file).0 == file)
    ensures Perform(op, fault, file).1 <==> !IsRejected(op, fault, file)
  {
  }

  /** No call for `key` gets to its write. */
  predicate SparesFile(s: State, more: seq<Step>, key: Key)
  {
    forall n :: 0 <= n < |more| && more[n].Write? && more[n].call < |Run(s, more[..n]).calls| ==>
      Run(s, more[..n]).calls[more[n].call].key != key
  }

  /** Whatever the calls for other projects do, a project's file stays as it is. */
  lemma {:induction false} OtherProjectsStay(s: State, more: seq<Step>, key: Key)
    requires SparesFile(s, more, key)
    ensures File(Run(s, more).files, key) == File(s.files, key)
    decreases |more|
  {
    if more != [] {
      var shorter, last := more[..|more| - 1], more[|more| - 1];
      assert SparesFile(s, shorter, key) by {
        assert forall n :: 0 <= n < |shorter| ==> shorter[..n] == more[..n] && shorter[n] == more[n];
      }
      OtherProjectsStay(s, shorter, key);
      hide Apply, Run;
      assert Run(s, more) == Next(Run(s, shorter), last) by { LastStep(s, more); }
    }
  }

  lemma LastStep(s: State, more: seq<Step>)
    requires more != []
    ensures Run(s, more) == Next(Run(s, more[..|more| - 1]), more[|more| - 1])
  {
  }

  /** Failures hold nothing up: while some call is not over, one can go on. */
  lemma SomeCallGoesOn(init: State, steps: seq<Step>, i: nat)
    requires Init(init) && i < |Run(init, steps).calls| && !Run(init, steps).calls[i].cleaned
    ensures exists step: Step :: !step.Enqueue? && Next(Run(init, steps), step) != Run(init, steps)
  {
    var s := Run(init, steps);
    RunKeepsInv(init, steps);
    hide Run, FilesOk, InTurn;
    FirstGoesOn(s, i);
  }

  lemma {:induction false} FirstGoesOn(s: State, i: nat)
    requires ChainsOk(s) && i < |s.calls| && !s.calls[i].cleaned
    ensures exists step: Step :: !step.Enqueue? && Next(s, step) != s
    decreases i
  {
    hide LastCall, Next;
    var prev := s.calls[i].prev;
    assert prev == LastCall(s.calls, i, s.calls[i].key);
    hide ChainsOk;
    if prev.Some? && !s.calls[prev.value].cleaned {
      FirstGoesOn(s, prev.value);
    } else {
      ThisGoesOn(s, i);
    }
  }

  lemma ThisGoesOn(s: State, i: nat)
    requires i < |s.calls| && !s.calls[i].cleaned && MayStart(s, i)
    ensures exists step: Step :: !step.Enqueue? && Next(s, step) != s
  {
    hide Apply, File;
    match s.calls[i].phase
    case Queued => assert Next(s, Read(i, false)).calls[i].phase.HasRead?;
    case HasRead(_) => assert Next(s, Write(i, NoFault)).calls[i].phase.Settled?;
    case Settled(_, _) => assert Next(s, Clean(i)).calls[i].cleaned;
  }

  /** The entry of a project stays in the map for good: the promise in it is never the one the cleanup
      compares it with. */
  lemma EntriesStay(init: State, steps: seq<Step>, more: seq<Step>, key: Key)
    requires Init(init) && key in Run(init, steps).writeQueues
    ensures key in Run(Run(init, steps), more).writeQueues
  {
    RunKeepsInv(init, steps);
    hide Run, ChainsOk;
    EntriesStayFrom(Run(init, steps), more, key);
  }

  lemma {:induction false} EntriesStayFrom(s: State, more: seq<Step>, key: Key)
    requires ChainsOk(s) && key in s.writeQueues
    ensures ChainsOk(Run(s, more)) && key in Run(s, more).writeQueues
    decreases |more|
  {
    hide ChainsOk, Next;
    if more != [] {
      EntriesStayFrom(s, more[..|more| - 1], key);
      NextKeepsChains(Run(s, more[..|more| - 1]), more[|more| - 1]);
    }
  }
}
