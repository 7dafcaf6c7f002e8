/** `RunScheduler.execute`: a task graph run with bounded parallelism, as a machine whose steps are the
    stretches of code between two awaits.

    `snapshot` is the `state` object that `execute` reads once; `store` is current.json. Results are
    written to copies that are read afresh, and every launch queues an un-awaited save of the snapshot.
    With `shared` the store hands out one object, so that `fresh` and `state` are the same thing. */
module RunScheduler {
  import opened Options
  import opened BlockPropagation

  datatype RunStatus = RunRunning | RunPaused | RunCompleted | RunFailed

  /** The contents of current.json. */
  datatype RunRecord = RunRecord(status: RunStatus, tasks: Statuses)

  /** A task in flight: its runner works, its result is about to be saved, or it is saved. */
  datatype Work = Working | Saving(copy: RunRecord) | Closing

  /** The save a launch started: not serialised yet, or on its way to the disk. */
  datatype Save = Queued | Writing(copy: RunRecord)

  /** Where `execute` stands. */
  datatype Main =
    | Evaluating
    | Waiting(awaited: set<TaskId>)
    | Draining
    | Judged(outcome: RunStatus)
    | Recording(outcome: RunStatus, copy: RunRecord)
    | Finished(outcome: RunStatus)

  /** `started` and `results` are the history of the run: launches in order, and what the runners gave. */
  datatype State = State(
    graph: seq<Task>,
    maxParallel: nat,
    shared: bool,
    snapshot: Statuses,
    store: RunRecord,
    inFlight: map<TaskId, Work>,
    saves: map<TaskId, Save>,
    abort: bool,
    main: Main,
    started: seq<TaskId>,
    results: map<TaskId, bool>)

  datatype Step =
    | LaunchNext
    | EndSweep
    | Wake
    | Judge
    | Reread
    | Record
    | Cancel
    | Finish(id: TaskId, ok: bool)
    | SaveResult(id: TaskId)
    | Leave(id: TaskId)
    | Serialise(id: TaskId)
    | Flush(id: TaskId)

  predicate UniqueIds(graph: seq<Task>)
  {
    forall i, j :: 0 <= i < j < |graph| ==> graph[i].id != graph[j].id
  }

  predicate Init(s: State)
  {
    && UniqueIds(s.graph)
    && s.maxParallel >= 1
    && s.store == RunRecord(RunRunning, s.snapshot)
    && s.inFlight == map[] && s.saves == map[] && s.started == [] && s.results == map[]
    && s.main == Evaluating
  }

  // ---- choosing a task ----------------------------------------------------------------------

  predicate Done(statuses: Statuses, id: TaskId)
  {
    id in statuses && statuses[id].Completed?
  }

  predicate DepsDone(statuses: Statuses, task: Task)
  {
    forall d :: d in task.dependsOn ==> Done(statuses, d)
  }

  predicate ParallelSafe(graph: seq<Task>, id: TaskId)
  {
    exists i :: 0 <= i < |graph| && graph[i].id == id && graph[i].parallelSafe
  }

  /** Another task may start at all: a slot is free and nothing solo is in flight. */
  predicate HasRoom(s: State)
  {
    |s.inFlight| < s.maxParallel && forall id :: id in s.inFlight ==> ParallelSafe(s.graph, id)
  }

  predicate Launchable(s: State, task: Task)
  {
    && HasRoom(s)
    && task.id !in s.inFlight
    && BlockPropagation.Waiting(s.snapshot, task.id)
    && DepsDone(s.snapshot, task)
    && (task.parallelSafe || s.inFlight == map[])
  }

  /** The first launchable task at or after position `i`. */
  function Pick(s: State, i: nat): (r: Option<nat>)
    requires i <= |s.graph|
    ensures r.Some? ==> i <= r.value < |s.graph| && Launchable(s, s.graph[r.value])
    ensures forall j :: i <= j < (if r.Some? then r.value else |s.graph|) ==> !Launchable(s, s.graph[j])
    decreases |s.graph| - i
  {
    if i == |s.graph| then None
    else if Launchable(s, s.graph[i]) then Some(i)
    else Pick(s, i + 1)
  }

  /** The task is pending or ready and not in flight, and all it depends on is completed. */
  predicate Startable(s: State, task: Task)
  {
    && task.id !in s.inFlight && task.id in s.snapshot
    && (s.snapshot[task.id] == Pending || s.snapshot[task.id] == ReadyToRun)
    && forall d :: d in task.dependsOn ==> d in s.snapshot && s.snapshot[d] == Completed
  }

  predicate OnlyParallelSafe(s: State)
  {
    forall id :: id in s.inFlight ==> exists i :: 0 <= i < |s.graph| && s.graph[i].id == id && s.graph[i].parallelSafe
  }

  /** The rules in one: a free slot, nothing solo in flight, the task startable and alone if it is solo. */
  predicate MayStart(s: State, i: int)
    requires 0 <= i < |s.graph|
  {
    && |s.inFlight| < s.maxParallel && OnlyParallelSafe(s)
    && Startable(s, s.graph[i]) && (s.graph[i].parallelSafe || |s.inFlight| == 0)
  }

  /** The pick is the first task that may start, and there is one if any may. */
  lemma PickMeans(s: State)
    ensures
      match Pick(s, 0)
      case Some(k) => k < |s.graph| && MayStart(s, k) && forall j :: 0 <= j < k ==> !MayStart(s, j)
      case None => forall j :: 0 <= j < |s.graph| ==> !MayStart(s, j)
  {
    forall j | 0 <= j < |s.graph|
      ensures Launchable(s, s.graph[j]) <==> MayStart(s, j)
    {
      LaunchableMeans(s, j);
    }
    hide Launchable, MayStart, Pick;
  }

  lemma LaunchableMeans(s: State, j: nat)
    requires j < |s.graph|
    ensures Launchable(s, s.graph[j]) <==> MayStart(s, j)
  {
    assert |s.inFlight| == 0 <==> s.inFlight == map[];
  }

  // ---- the steps ----------------------------------------------------------------------------

  function Launch(s: State, task: Task): State
  {
    s.(snapshot := s.snapshot[task.id := Running],
       inFlight := s.inFlight[task.id := Working],
       saves := s.saves[task.id := Queued],
       started := s.started + [task.id])
  }

  function LaunchStep(s: State): State
  {
    if s.main.Evaluating? && !s.abort && Pick(s, 0).Some? then Launch(s, s.graph[Pick(s, 0).value]) else s
  }

  function EndSweepStep(s: State): State
  {
    if !s.main.Evaluating? || (!s.abort && Pick(s, 0).Some?) then s
    else s.(main := if s.inFlight == map[] then Draining else Waiting(s.inFlight.Keys))
  }

  /** One of the promises handed to `Promise.race` has settled. */
  predicate Woken(s: State)
  {
    s.main.Waiting? && !(s.main.awaited <= s.inFlight.Keys)
  }

  function WakeStep(s: State): State
  {
    if Woken(s) then s.(main := if s.abort then Draining else Evaluating) else s
  }

  predicate Settled(statuses: Statuses, id: TaskId)
  {
    id in statuses &&
    (statuses[id].Completed? || statuses[id].Failed? || statuses[id].BlockedByUpstream? || statuses[id].Skipped?)
  }

  predicate WentWrong(statuses: Statuses, id: TaskId)
  {
    id in statuses && (statuses[id].Failed? || statuses[id].BlockedByUpstream?)
  }

  function Verdict(graph: seq<Task>, abort: bool, tasks: Statuses): RunStatus
  {
    if abort || exists i :: 0 <= i < |graph| && !Settled(tasks, graph[i].id) then RunPaused
    else if exists i :: 0 <= i < |graph| && WentWrong(tasks, graph[i].id) then RunFailed
    else RunCompleted
  }

  /** `runStore.getCurrent`. */
  function Current(s: State): RunRecord
  {
    if s.shared then RunRecord(s.store.status, s.snapshot) else s.store
  }

  /** `runStore.saveCurrent` of a record read before; nothing new for a shared object. */
  function Put(s: State, copy: RunRecord): State
  {
    if s.shared then s else s.(store := copy)
  }

  function JudgeStep(s: State): State
  {
    if s.main.Draining? && s.inFlight == map[] then
      s.(main := Judged(Verdict(s.graph, s.abort, Current(s).tasks)))
    else s
  }

  function RereadStep(s: State): State
  {
    if s.main.Judged? then s.(main := Recording(s.main.outcome, Current(s))) else s
  }

  function RecordStep(s: State): State
  {
    if !s.main.Recording? then s
    else
      var kept := if s.shared then s.store.tasks else s.main.copy.tasks;
      s.(main := Finished(s.main.outcome), store := RunRecord(s.main.outcome, kept))
  }

  /** What a task writes into the record it read: its own outcome and, on failure, the blocked tasks. */
  function WithResult(graph: seq<Task>, tasks: Statuses, id: TaskId, ok: bool): Statuses
  {
    if ok then tasks[id := Completed] else Propagate(graph, {id}, tasks[id := Failed])
  }

  predicate Busy(s: State, id: TaskId)
  {
    !s.main.Evaluating? && id in s.inFlight
  }

  predicate AtWork(s: State, id: TaskId)
  {
    Busy(s, id) && s.inFlight[id].Working?
  }

  /** The runner answers; the task reads the record afresh and updates that. */
  function FinishStep(s: State, id: TaskId, ok: bool): State
  {
    if !AtWork(s, id) then s
    else
      var tasks := WithResult(s.graph, Current(s).tasks, id, ok);
      s.(snapshot := if s.shared then tasks else s.snapshot,
         inFlight := s.inFlight[id := Saving(RunRecord(s.store.status, tasks))],
         results := s.results[id := ok])
  }

  function SaveResultStep(s: State, id: TaskId): State
  {
    if !Busy(s, id) || !s.inFlight[id].Saving? then s
    else Put(s, s.inFlight[id].copy).(inFlight := s.inFlight[id := Closing])
  }

  function LeaveStep(s: State, id: TaskId): State
  {
    if !Busy(s, id) || !s.inFlight[id].Closing? then s else s.(inFlight := s.inFlight - {id})
  }

  function SerialiseStep(s: State, id: TaskId): State
  {
    if s.main.Evaluating? || id !in s.saves || !s.saves[id].Queued? then s
    else s.(saves := s.saves[id := Writing(RunRecord(RunRunning, s.snapshot))])
  }

  function FlushStep(s: State, id: TaskId): State
  {
    if s.main.Evaluating? || id !in s.saves || !s.saves[id].Writing? then s
    else Put(s, s.saves[id].copy).(saves := s.saves - {id})
  }

  function Next(s: State, step: Step): State
  {
    match step
    case LaunchNext => LaunchStep(s)
    case EndSweep => EndSweepStep(s)
    case Wake => WakeStep(s)
    case Judge => JudgeStep(s)
    case Reread => RereadStep(s)
    case Record => RecordStep(s)
    case Cancel => s.(abort := true)
    case Finish(id, ok) => FinishStep(s, id, ok)
    case SaveResult(id) => SaveResultStep(s, id)
    case Leave(id) => LeaveStep(s, id)
    case Serialise(id) => SerialiseStep(s, id)
    case Flush(id) => FlushStep(s, id)
  }

  lemma NextIsLaunch(s: State)
    ensures Next(s, LaunchNext) == LaunchStep(s)
  {
    hide LaunchStep;
  }

  lemma NextIsFinish(s: State, id: TaskId, ok: bool)
    ensures Next(s, Finish(id, ok)) == FinishStep(s, id, ok)
  {
    hide FinishStep;
  }

  function Run(s: State, steps: seq<Step>): State
    decreases |steps|
  {
    if steps == [] then s else Next(Run(s, steps[..|steps| - 1]), steps[|steps| - 1])
  }

  // ---- the object ---------------------------------------------------------------------------

  /** A `RunScheduler` in the middle of `execute`: its fields, the record it read, the store it uses, and
      the saves its launches left running. */
  class Scheduler {
    const graph: seq<Task>
    const maxParallel: nat
    const shared: bool
    var abort: bool
    var inFlight: map<TaskId, Work>
    var tasks: Statuses
    var store: RunRecord
    var saves: map<TaskId, Save>
    ghost var main: Main
    ghost var started: seq<TaskId>
    ghost var results: map<TaskId, bool>

    constructor (graph: seq<Task>, maxParallel: int, store: RunRecord, shared: bool)
      requires UniqueIds(graph) && store.status == RunRunning
      ensures this.graph == graph && this.maxParallel == (if maxParallel < 1 then 1 else maxParallel)
      ensures this.shared == shared && this.store == store
      ensures Init(Model())
    {
      this.graph, this.maxParallel, this.shared := graph, if maxParallel < 1 then 1 else maxParallel, shared;
      abort, inFlight, tasks, this.store, saves := false, map[], store.tasks, store, map[];
      main, started, results := Evaluating, [], map[];
    }

    ghost function Model(): State
      reads this
    {
      State(graph, maxParallel, shared, tasks, store, inFlight, saves, abort, main, started, results)
    }

    method PickLaunchable() returns (r: Option<Task>)
      ensures r == match Pick(Model(), 0) case None => None case Some(i) => Some(graph[i])
      ensures r.None? ==> forall j :: 0 <= j < |graph| ==> !MayStart(Model(), j)
      ensures r.Some? ==>
                exists i :: 0 <= i < |graph| && r.value == graph[i] && MayStart(Model(), i)
                         && forall j :: 0 <= j < i ==> !MayStart(Model(), j)
    {
      PickMeans(Model());
      if |inFlight| >= maxParallel || exists id :: id in inFlight && !ParallelSafe(graph, id) {
        return None;
      }
      var i := 0;
      while i < |graph|
        invariant 0 <= i <= |graph|
        invariant Pick(Model(), 0) == Pick(Model(), i)
      {
        var task := graph[i];
        if task.id !in inFlight && task.id in tasks && (tasks[task.id].Pending? || tasks[task.id].ReadyToRun?)
           && (forall d :: d in task.dependsOn ==> d in tasks && tasks[d].Completed?)
           && (task.parallelSafe || |inFlight| == 0)
        {
          return Some(task);
        }
        i := i + 1;
      }
      return None;
    }

    method LaunchTask(task: Task)
      modifies this
      ensures Model() == Launch(old(Model()), task)
    {
      tasks := tasks[task.id := Running];
      saves := saves[task.id := Queued];
      started := started + [task.id];
      inFlight := inFlight[task.id := Working];
    }

    /** The inner loop of `execute`: launch as many tasks as the rules allow. */
    method LaunchAll() returns (launched: nat, ghost steps: seq<Step>)
      requires main == Evaluating
      modifies this
      ensures |steps| == launched && forall i :: 0 <= i < |steps| ==> steps[i] == LaunchNext
      ensures Model() == Run(old(Model()), steps)
      ensures Model() == LaunchStep(Model())
    {
      launched, steps := 0, [];
      ghost var s0 := Model();
      while !abort
        invariant main == Evaluating
        invariant Model() == Run(s0, steps)
        invariant |steps| == launched && forall i :: 0 <= i < |steps| ==> steps[i] == LaunchNext
        decreases Unstarted(graph, tasks)
      {
        var next := PickLaunchable();
        if next.None? {
          break;
        }
        ghost var before := Model();
        LaunchTask(next.value);
        assert Model() == Next(before, LaunchNext);
        PickedIsWaiting(before);
        StartedDrops(graph, before.snapshot, next.value);
        launched := launched + 1;
        assert (steps + [LaunchNext])[..|steps|] == steps;
        steps := steps + [LaunchNext];
      }
    }

    /** The runner of `id` has answered: read the record afresh and put the result into that copy. */
    method TaskAnswered(id: TaskId, ok: bool)
      requires AtWork(Model(), id)
      modifies this
      ensures Model() == FinishStep(old(Model()), id, ok)
    {
      var latest := if shared then tasks else store.tasks;
      if ok {
        latest := latest[id := Completed];
      } else {
        latest := PropagateBlock(graph, id, latest[id := Failed]);
      }
      if shared {
        tasks := latest;
      }
      inFlight := inFlight[id := Saving(RunRecord(store.status, latest))];
      results := results[id := ok];
    }

    method CancelRun()
      modifies this`abort
      ensures Model() == Next(old(Model()), Cancel)
    {
      abort := true;
    }
  }

  lemma PickedIsWaiting(s: State)
    requires Pick(s, 0).Some?
    ensures BlockPropagation.Waiting(s.snapshot, s.graph[Pick(s, 0).value].id)
  {
  }

  /** The ids of the graph that are still waiting. */
  ghost function Unstarted(graph: seq<Task>, tasks: Statuses): set<TaskId>
  {
    set i | 0 <= i < |graph| && BlockPropagation.Waiting(tasks, graph[i].id) :: graph[i].id
  }

  lemma StartedDrops(graph: seq<Task>, tasks: Statuses, task: Task)
    requires task in graph && BlockPropagation.Waiting(tasks, task.id)
    ensures Unstarted(graph, tasks[task.id := Running]) < Unstarted(graph, tasks)
  {
    assert task.id in Unstarted(graph, tasks);
  }
}
