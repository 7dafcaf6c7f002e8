/** What a run of `RunScheduler.execute` comes to: it ends, which tasks it starts, and what is left
    in the store, for a store that re-reads its file and for one that shares its object. */
module SchedulerResults {
  import opened BlockPropagation
  import opened RunScheduler
  import opened SchedulerRuns

  // ---- it ends ------------------------------------------------------------------------------

  /** What task `id` can still do, counted in steps. */
  function TaskRank(s: State, id: TaskId): nat
  {
    WorkRank(s, id) + SaveRank(s, id)
  }

  function WorkRank(s: State, id: TaskId): nat
  {
    if id in s.inFlight then
      match s.inFlight[id]
      case Working => 5
      case Saving(_) => 4
      case Closing => 3
    else if BlockPropagation.Waiting(s.snapshot, id) then 8
    else 0
  }

  function SaveRank(s: State, id: TaskId): nat
  {
    if id !in s.saves then 0 else if s.saves[id].Queued? then 2 else 1
  }

  function TaskSum(s: State, n: nat): nat
    requires n <= |s.graph|
  {
    if n == 0 then 0 else TaskSum(s, n - 1) + TaskRank(s, s.graph[n - 1].id)
  }

  function MainRank(s: State): nat
  {
    match s.main
    case Evaluating => 6
    case Waiting(_) => if Woken(s) then 7 else 5
    case Draining => 3
    case Judged(_) => 2
    case Recording(_, _) => 1
    case Finished(_) => 0
  }

  function Measure(s: State): nat
  {
    TaskSum(s, |s.graph|) + MainRank(s) + if s.abort then 0 else 1
  }

  lemma {:induction false} SumDrops(s: State, s': State, n: nat, id: TaskId, k: nat)
    requires s'.graph == s.graph && n <= |s.graph|
    requires forall x :: TaskRank(s', x) <= TaskRank(s, x)
    requires TaskRank(s', id) + k <= TaskRank(s, id)
    ensures TaskSum(s', n) <= TaskSum(s, n)
    ensures (exists i :: 0 <= i < n && s.graph[i].id == id) ==> TaskSum(s', n) + k <= TaskSum(s, n)
  {
    if n > 0 {
      SumDrops(s, s', n - 1, id, k);
      hide TaskRank;
      if i :| 0 <= i < n && s.graph[i].id == id {
        assert i < n - 1 || s.graph[n - 1].id == id;
      }
    }
  }

  lemma LaunchDrops(init: State, s: State)
    requires Inv(init, s) && LaunchStep(s) != s
    ensures Measure(LaunchStep(s)) < Measure(s)
  {
    LaunchOrNothing(s);
    var s' := LaunchStep(s);
    var i :| 0 <= i < |s.graph| && Launchable(s, s.graph[i]) && s' == Launch(s, s.graph[i]);
    var id := s.graph[i].id;
    assert s.main.Evaluating?;
    hide LaunchStep, TaskSum;
    LaunchedWasWaiting(init, s, s.graph[i]);
    assert id !in s.saves;
    hide Inv, DepsDone, HasRoom, Launchable, LaunchStep;
    LaunchRanks(s, s.graph[i]);
    SumDrops(s, s', |s.graph|, id, 1);
  }

  lemma LaunchRanks(s: State, task: Task)
    requires task.id !in s.saves && task.id !in s.inFlight && BlockPropagation.Waiting(s.snapshot, task.id)
    ensures TaskRank(Launch(s, task), task.id) + 1 <= TaskRank(s, task.id)
    ensures forall x :: TaskRank(Launch(s, task), x) <= TaskRank(s, x)
  {
  }

  lemma FinishDrops(init: State, s: State, id: TaskId, ok: bool)
    requires Inv(init, s) && AtWork(s, id)
    ensures Measure(FinishStep(s, id, ok)) < Measure(s)
  {
    var s' := FinishStep(s, id, ok);
    KnownTask(init, s, id);
    assert id in s.snapshot;
    hide Inv, FinishStep, TaskRank, MainRank;
    FinishRanks(s, id, ok);
    FinishKeepsMain(s, id, ok);
    SumDrops(s, s', |s.graph|, id, 1);
  }

  lemma FinishKeepsMain(s: State, id: TaskId, ok: bool)
    requires AtWork(s, id)
    ensures FinishStep(s, id, ok).graph == s.graph && FinishStep(s, id, ok).abort == s.abort
    ensures MainRank(FinishStep(s, id, ok)) == MainRank(s)
  {
    hide WithResult;
    assert FinishStep(s, id, ok).inFlight.Keys == s.inFlight.Keys;
  }

  lemma FinishRanks(s: State, id: TaskId, ok: bool)
    requires AtWork(s, id) && id in s.snapshot
    ensures TaskRank(FinishStep(s, id, ok), id) + 1 <= TaskRank(s, id)
    ensures forall x :: TaskRank(FinishStep(s, id, ok), x) <= TaskRank(s, x)
  {
    WithResultEntries(s.graph, s.snapshot, id, ok);
    hide WithResult, Downstream;
  }

  lemma KnownTask(init: State, s: State, id: TaskId)
    requires Inv(init, s) && (id in s.inFlight || id in s.saves)
    ensures id in s.started && id in GraphIds(s.graph) && !BlockPropagation.Waiting(s.snapshot, id)
  {
    assert SnapshotEntry(init, s, id);
  }

  lemma SaveResultDrops(init: State, s: State, id: TaskId)
    requires Inv(init, s) && SaveResultStep(s, id) != s
    ensures Measure(SaveResultStep(s, id)) < Measure(s)
  {
    var s' := SaveResultStep(s, id);
    KnownTask(init, s, id);
    hide Inv;
    SaveResultRanks(s, id);
    hide SaveResultStep, TaskRank, MainRank;
    SumDrops(s, s', |s.graph|, id, 1);
  }

  lemma SaveResultRanks(s: State, id: TaskId)
    requires SaveResultStep(s, id) != s
    ensures SaveResultStep(s, id).graph == s.graph && SaveResultStep(s, id).abort == s.abort
    ensures MainRank(SaveResultStep(s, id)) == MainRank(s)
    ensures TaskRank(SaveResultStep(s, id), id) + 1 <= TaskRank(s, id)
    ensures forall x :: TaskRank(SaveResultStep(s, id), x) <= TaskRank(s, x)
  {
    assert SaveResultStep(s, id).inFlight.Keys == s.inFlight.Keys;
  }

  /** Leaving may wake the main loop, which the last rank of a task in flight pays for. */
  lemma LeaveDrops(init: State, s: State, id: TaskId)
    requires Inv(init, s) && LeaveStep(s, id) != s
    ensures Measure(LeaveStep(s, id)) < Measure(s)
  {
    var s' := LeaveStep(s, id);
    KnownTask(init, s, id);
    hide Inv;
    LeaveRanks(s, id);
    hide LeaveStep, TaskRank, MainRank;
    SumDrops(s, s', |s.graph|, id, 3);
  }

  lemma LeaveRanks(s: State, id: TaskId)
    requires LeaveStep(s, id) != s && !BlockPropagation.Waiting(s.snapshot, id)
    ensures LeaveStep(s, id).graph == s.graph && LeaveStep(s, id).abort == s.abort
    ensures MainRank(LeaveStep(s, id)) <= MainRank(s) + 2
    ensures TaskRank(LeaveStep(s, id), id) + 3 <= TaskRank(s, id)
    ensures forall x :: TaskRank(LeaveStep(s, id), x) <= TaskRank(s, x)
  {
    hide BlockPropagation.Waiting;
  }

  lemma SaveDrops(init: State, s: State, step: Step)
    requires Inv(init, s) && Next(s, step) != s && (step.Serialise? || step.Flush?)
    ensures Measure(Next(s, step)) < Measure(s)
  {
    var s' := Next(s, step);
    hide Next, TaskRank, MainRank;
    SaveRanks(s, step);
    KnownTask(init, s, step.id);
    hide Inv;
    SavesKeepMain(s, step);
    SumDrops(s, s', |s.graph|, step.id, 1);
  }

  lemma SavesKeepMain(s: State, step: Step)
    requires step.Serialise? || step.Flush?
    ensures Next(s, step).graph == s.graph && Next(s, step).abort == s.abort
    ensures MainRank(Next(s, step)) == MainRank(s)
  {
  }

  lemma SaveRanks(s: State, step: Step)
    requires Next(s, step) != s && (step.Serialise? || step.Flush?)
    ensures step.id in s.saves
    ensures TaskRank(Next(s, step), step.id) + 1 <= TaskRank(s, step.id)
    ensures forall x :: TaskRank(Next(s, step), x) <= TaskRank(s, x)
  {
  }

  lemma MainDrops(s: State, step: Step)
    requires step.EndSweep? || step.Wake? || step.Judge? || step.Reread? || step.Record? || step.Cancel?
    requires Next(s, step) != s
    ensures Measure(Next(s, step)) < Measure(s)
  {
    var s' := Next(s, step);
    MainStepsKeepTasks(s, step);
    MainStepsKeepSaves(s, step);
    assert MainRank(s') + (if s'.abort then 0 else 1) < MainRank(s) + if s.abort then 0 else 1 by {
      hide Pick, Verdict, SameTasks, TaskSum, TaskRank;
    }
    hide Next;
    SumDrops(s, s', |s.graph|, "", 0);
  }

  lemma EveryStepDrops(init: State, s: State, step: Step)
    requires Inv(init, s) && Next(s, step) != s
    ensures Measure(Next(s, step)) < Measure(s)
  {
    hide Inv, Measure, LaunchStep, WithResult, SaveResultStep, LeaveStep, Pick, Verdict;
    match step
    case LaunchNext => LaunchDrops(init, s);
    case Finish(id, ok) => FinishDrops(init, s, id, ok);
    case SaveResult(id) => SaveResultDrops(init, s, id);
    case Leave(id) => LeaveDrops(init, s, id);
    case Serialise(id) => SaveDrops(init, s, step);
    case Flush(id) => SaveDrops(init, s, step);
    case _ => MainDrops(s, step);
  }

  /** Every step of the run changed something. */
  predicate Effective(init: State, steps: seq<Step>)
  {
    forall n :: 0 <= n < |steps| ==> Next(Run(init, steps[..n]), steps[n]) != Run(init, steps[..n])
  }

  lemma EffectiveBefore(init: State, steps: seq<Step>)
    requires steps != [] && Effective(init, steps)
    ensures
      var n := |steps| - 1;
      Effective(init, steps[..n]) && Next(Run(init, steps[..n]), steps[n]) != Run(init, steps[..n])
  {
    var shorter := steps[..|steps| - 1];
    hide Run, Next;
    assert forall n :: 0 <= n < |shorter| ==> shorter[..n] == steps[..n] && shorter[n] == steps[n];
  }

  lemma {:induction false} RunDrops(init: State, steps: seq<Step>)
    requires Init(init) && Effective(init, steps)
    ensures Measure(Run(init, steps)) + |steps| <= Measure(init)
    decreases |steps|
  {
    if steps != [] {
      var shorter, last := steps[..|steps| - 1], steps[|steps| - 1];
      hide Measure, Inv, Next, Init;
      EffectiveBefore(init, steps);
      hide Effective;
      RunDrops(init, shorter);
      RunKeepsInv(init, shorter);
      EveryStepDrops(init, Run(init, shorter), last);
    }
  }

  lemma {:induction false} SumAtMost(s: State, n: nat)
    requires n <= |s.graph| && s.inFlight == map[] && s.saves == map[]
    ensures TaskSum(s, n) <= 8 * n
  {
    if n > 0 {
      SumAtMost(s, n - 1);
    }
  }

  lemma NotStuck(s: State)
    requires MainOk(s) && !s.main.Finished?
    ensures exists step :: step != Cancel && Next(s, step) != s
  {
    hide Verdict, Pick, NothingLaunchable;
    match s.main
    case Evaluating => EvaluatingMoves(s);
    case Waiting(awaited) =>
      if Woken(s) {
        assert Next(s, Wake).main != s.main;
      } else {
        var id :| id in awaited;
        InFlightMoves(s, id);
      }
    case Draining =>
      if s.inFlight == map[] {
        assert Next(s, Judge).main != s.main;
      } else {
        var id :| id in s.inFlight;
        InFlightMoves(s, id);
      }
    case Judged(_) => assert Next(s, Reread).main != s.main;
    case Recording(_, _) => assert Next(s, Record).main != s.main;
  }

  lemma EvaluatingMoves(s: State)
    requires s.main.Evaluating?
    ensures exists step :: step != Cancel && Next(s, step) != s
  {
    if !s.abort && Pick(s, 0).Some? {
      LaunchMoves(s, s.graph[Pick(s, 0).value]);
      assert Next(s, LaunchNext) != s;
    } else {
      assert Next(s, EndSweep).main != s.main;
    }
  }

  lemma LaunchMoves(s: State, task: Task)
    ensures Launch(s, task) != s
  {
    assert |Launch(s, task).started| == |s.started| + 1;
  }

  lemma InFlightMoves(s: State, id: TaskId)
    requires Busy(s, id)
    ensures exists step :: step != Cancel && Next(s, step) != s
  {
    hide WithResult;
    match s.inFlight[id]
    case Working => assert Next(s, Finish(id, true)).inFlight[id] != Working;
    case Saving(_) => assert Next(s, SaveResult(id)).inFlight[id] == Closing;
    case Closing => assert id !in Next(s, Leave(id)).inFlight;
  }

  /** If every runner answers, `execute` ends: no run has more than 8n + 7 effective steps, whatever the
      interleaving, and until the main loop has finished something other than a cancel can happen. */
  lemma ExecuteTerminates(init: State, steps: seq<Step>)
    requires Init(init) && Effective(init, steps)
    ensures |steps| <= 8 * |init.graph| + 7
    ensures !Run(init, steps).main.Finished? ==>
              exists step :: step != Cancel && Next(Run(init, steps), step) != Run(init, steps)
  {
    RunDrops(init, steps);
    SumAtMost(init, |init.graph|);
    RunKeepsInv(init, steps);
    if !Run(init, steps).main.Finished? {
      NotStuck(Run(init, steps));
    }
  }

  // ---- limits, in every state of every run ----------------------------------------------------

  /** `id` names a task all of whose dependencies are completed. */
  predicate Ready(graph: seq<Task>, statuses: Statuses, id: TaskId)
  {
    exists i :: 0 <= i < |graph| && graph[i].id == id && DepsDone(statuses, graph[i])
  }

  /** A task in flight that is not parallel-safe is the only one. */
  predicate SoloIsAlone(s: State)
  {
    forall i :: 0 <= i < |s.graph| && s.graph[i].id in s.inFlight && !s.graph[i].parallelSafe ==>
      forall id :: id in s.inFlight ==> id == s.graph[i].id
  }

  /** What `execute` promises about scheduling, at every moment. */
  lemma RunIsSafe(init: State, steps: seq<Step>)
    requires Init(init)
    ensures
      var s := Run(init, steps);
      && s.graph == init.graph && |s.inFlight| <= init.maxParallel && SoloIsAlone(s)
      && NoRepeats(s.started)
      && (forall id :: id in s.started ==>
          BlockPropagation.Waiting(init.snapshot, id) && Ready(init.graph, s.snapshot, id))
  {
    RunKeepsInv(init, steps);
    hide Run;
    InvIsSafe(init, Run(init, steps));
  }

  lemma InvIsSafe(init: State, s: State)
    requires UniqueIds(init.graph) && Inv(init, s)
    ensures s.graph == init.graph && |s.inFlight| <= init.maxParallel && SoloIsAlone(s)
    ensures NoRepeats(s.started)
    ensures forall id :: id in s.started ==>
            BlockPropagation.Waiting(init.snapshot, id) && Ready(init.graph, s.snapshot, id)
  {
    assert SameConfig(init, s) && Bounded(s) && HistoryOk(init, s) && DepsOk(s);
    hide Inv, HistoryOk, DepsOk, Ready, SoloIsAlone, NoRepeats;
    StartedFacts(init, s);
    BoundedIsSolo(s);
    forall id | id in s.started
      ensures Ready(init.graph, s.snapshot, id)
    {
      StartedIsReady(s, id);
    }
  }

  lemma BoundedIsSolo(s: State)
    requires UniqueIds(s.graph) && Bounded(s)
    ensures SoloIsAlone(s)
  {
    forall i, id | 0 <= i < |s.graph| && s.graph[i].id in s.inFlight && !s.graph[i].parallelSafe && id in s.inFlight
      ensures id == s.graph[i].id
    {
      assert !ParallelSafe(s.graph, s.graph[i].id);
      assert s.inFlight.Keys == {s.graph[i].id};
    }
  }

  lemma StartedFacts(init: State, s: State)
    requires HistoryOk(init, s)
    ensures NoRepeats(s.started)
    ensures forall id :: id in s.started ==> id in GraphIds(s.graph) && BlockPropagation.Waiting(init.snapshot, id)
  {
  }

  lemma StartedIsReady(s: State, id: TaskId)
    requires DepsOk(s) && id in s.started && id in GraphIds(s.graph)
    ensures Ready(s.graph, s.snapshot, id)
  {
    var i :| 0 <= i < |s.graph| && s.graph[i].id == id;
    assert DepsDone(s.snapshot, s.graph[i]);
  }

  /** No slot is left free that a task could use, and with nothing in flight no task could start at all. */
  predicate SlotsAreUsed(s: State)
  {
    && (|s.inFlight| < s.maxParallel && OnlyParallelSafe(s) ==>
          forall i :: 0 <= i < |s.graph| && s.graph[i].parallelSafe ==> !Startable(s, s.graph[i]))
    && (|s.inFlight| == 0 ==> forall i :: 0 <= i < |s.graph| ==> !Startable(s, s.graph[i]))
  }

  /** In every run: whenever a sweep ends and the run is not cancelled, the slots are used as far as the rules
      allow; and once the loop is over nothing is left that could start. */
  lemma SweepUsesSlots(init: State, steps: seq<Step>)
    requires Init(init) && !Run(init, steps).abort
    ensures
      var s := Run(init, steps);
      && (s.main.Evaluating? && Next(s, EndSweep) != s ==> SlotsAreUsed(Next(s, EndSweep)))
      && (PastLoop(s.main) ==> forall i :: 0 <= i < |s.graph| ==> !Startable(s, s.graph[i]))
  {
    RunKeepsInv(init, steps);
    var s := Run(init, steps);
    hide Run, Inv, SlotsAreUsed, Startable, NothingLaunchable, Next;
    LoopIsDone(init, s);
    if s.main.Evaluating? && Next(s, EndSweep) != s {
      EndSweepUsesSlots(s);
    }
    if PastLoop(s.main) {
      NothingStartable(s);
    }
  }

  lemma LoopIsDone(init: State, s: State)
    requires Inv(init, s)
    ensures s.maxParallel == init.maxParallel
    ensures PastLoop(s.main) && !s.abort ==> s.inFlight == map[] && NothingLaunchable(s)
  {
    assert SameConfig(init, s) && MainOk(s);
    hide Inv, NothingLaunchable;
  }

  lemma EndSweepUsesSlots(s: State)
    requires s.maxParallel >= 1 && !s.abort && s.main.Evaluating? && Next(s, EndSweep) != s
    ensures SlotsAreUsed(Next(s, EndSweep))
  {
    PickMeans(s);
    var s' := Next(s, EndSweep);
    hide Pick;
    assert s'.graph == s.graph && s'.inFlight == s.inFlight && s'.snapshot == s.snapshot;
    assert s'.maxParallel == s.maxParallel;
    hide Next;
    forall i | 0 <= i < |s.graph| && Startable(s', s.graph[i])
      ensures Startable(s, s.graph[i]) && !MayStart(s, i)
    {
    }
  }

  lemma NothingStartable(s: State)
    requires s.maxParallel >= 1 && s.inFlight == map[] && NothingLaunchable(s)
    ensures forall i :: 0 <= i < |s.graph| ==> !Startable(s, s.graph[i])
  {
    forall i | 0 <= i < |s.graph|
      ensures !Startable(s, s.graph[i])
    {
      LaunchableMeans(s, i);
    }
  }

  predicate HasOneOf(tasks: Statuses, id: TaskId, statuses: set<Status>)
  {
    id in tasks && tasks[id] in statuses
  }

  /** The verdict: paused if the run was cancelled or some task of the graph is not over, else failed if one
      failed or is blocked, else completed. It is read off the record the store holds when the loop is over. */
  lemma VerdictMeans(s: State)
    requires s.main.Draining? && s.inFlight == map[]
    ensures
      var main, tasks := Next(s, Judge).main, if s.shared then s.snapshot else s.store.tasks;
      && main.Judged?
      && (main.outcome == RunCompleted <==>
            !s.abort && forall i :: 0 <= i < |s.graph| ==> HasOneOf(tasks, s.graph[i].id, {Completed, Skipped}))
      && (main.outcome == RunFailed <==>
            !s.abort
            && (forall i :: 0 <= i < |s.graph| ==>
                 HasOneOf(tasks, s.graph[i].id, {Completed, Skipped, Failed, BlockedByUpstream}))
            && exists i :: 0 <= i < |s.graph| && HasOneOf(tasks, s.graph[i].id, {Failed, BlockedByUpstream}))
      && (main.outcome == RunCompleted || main.outcome == RunPaused || main.outcome == RunFailed)
  {
  }

  /** Whatever the store forgets, it never says anything untrue: each status it holds is the first one,
      "running" for a started task, what its runner gave, or "blocked" below a task whose runner failed; and
      a reported outcome is borne out: "completed" means every task was done before or succeeded. */
  lemma RecordsAreTrue(init: State, steps: seq<Step>)
    requires Init(init)
    ensures
      var s := Run(init, steps);
      && (forall id :: id in s.store.tasks ==> TrueEntry(init, s, id, s.store.tasks[id]))
      && (s.main.Finished? && s.main.outcome == RunCompleted ==>
            forall i :: 0 <= i < |init.graph| ==> WellDone(init, s, init.graph[i].id))
      && (s.main.Finished? && s.main.outcome == RunFailed ==>
            exists id :: WentWrong(init.snapshot, id) || (id in s.results && !s.results[id]))
  {
    RunKeepsInv(init, steps);
    hide Run, Downstream;
  }

  // ---- a store that re-reads its file -----------------------------------------------------------

  /** With a store that re-reads its file the snapshot never learns of a completion: an uncancelled run
      starts exactly the tasks that were ready at the beginning, and none that depends on another one it started. */
  lemma OnlyFirstReadyStart(init: State, steps: seq<Step>)
    requires Init(init) && !init.shared
    ensures
      var s := Run(init, steps);
      && (forall id :: id in s.started ==>
            BlockPropagation.Waiting(init.snapshot, id) && Ready(init.graph, init.snapshot, id))
      && (s.main.Finished? && !s.abort ==>
            forall id :: BlockPropagation.Waiting(init.snapshot, id) && Ready(init.graph, init.snapshot, id) ==>
                id in s.started)
  {
    var s := Run(init, steps);
    RunKeepsInv(init, steps);
    hide Run;
    InvIsSafe(init, s);
    SameDone(init, s);
    assert s.main.Finished? && !s.abort ==> s.inFlight == map[] && NothingLaunchable(s);
    assert SameConfig(init, s) && SnapshotOk(init, s);
    hide Inv;
    forall id | id in s.started
      ensures Ready(init.graph, init.snapshot, id)
    {
      hide NothingLaunchable, SnapshotOk;
      var i :| 0 <= i < |init.graph| && init.graph[i].id == id && DepsDone(s.snapshot, init.graph[i]);
      assert DepsDone(init.snapshot, init.graph[i]);
    }
    if s.main.Finished? && !s.abort {
      forall id | BlockPropagation.Waiting(init.snapshot, id) && Ready(init.graph, init.snapshot, id)
        ensures id in s.started
      {
        hide NothingLaunchable, SnapshotOk;
        ReadyHasStarted(init, s, id);
      }
    }
    hide NothingLaunchable, SnapshotOk, Ready;
  }

  lemma ReadyHasStarted(init: State, s: State, id: TaskId)
    requires init.maxParallel >= 1 && !s.shared && s.inFlight == map[] && NothingLaunchable(s)
    requires SameConfig(init, s) && SnapshotOk(init, s)
    requires forall d :: Done(s.snapshot, d) == Done(init.snapshot, d)
    requires BlockPropagation.Waiting(init.snapshot, id) && Ready(init.graph, init.snapshot, id)
    ensures id in s.started
  {
    var i :| 0 <= i < |init.graph| && init.graph[i].id == id && DepsDone(init.snapshot, init.graph[i]);
    assert SnapshotEntry(init, s, id);
    assert DepsDone(s.snapshot, s.graph[i]);
    assert !Launchable(s, s.graph[i]);
  }

  lemma SameDone(init: State, s: State)
    requires Inv(init, s) && !s.shared
    ensures forall d :: Done(s.snapshot, d) == Done(init.snapshot, d)
  {
    assert HistoryOk(init, s) && SnapshotOk(init, s);
    hide Inv;
    forall d
      ensures Done(s.snapshot, d) == Done(init.snapshot, d)
    {
      if d in init.snapshot {
        assert SnapshotEntry(init, s, d);
      }
    }
  }
}
