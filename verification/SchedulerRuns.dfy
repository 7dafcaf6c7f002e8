/** What holds over every run of `RunScheduler.execute`: the limits on what is in flight, that tasks
    start once and in order of their dependencies, that recorded results are true, and that it ends. */
module SchedulerRuns {
  import opened BlockPropagation
  import opened RunScheduler

  // ---- invariants ---------------------------------------------------------------------------

  predicate SameConfig(init: State, s: State)
  {
    s.graph == init.graph && s.maxParallel == init.maxParallel && s.shared == init.shared
  }

  /** At most `maxParallel` tasks in flight, and one that is not parallel-safe is alone. */
  predicate Bounded(s: State)
  {
    && |s.inFlight| <= s.maxParallel
    && forall id :: id in s.inFlight && !ParallelSafe(s.graph, id) ==> s.inFlight.Keys == {id}
  }

  predicate NoRepeats(ids: seq<TaskId>)
  {
    forall i, j :: 0 <= i < j < |ids| ==> ids[i] != ids[j]
  }

  /** Tasks start at most once, from the ids of the graph, and only if they were waiting at first. */
  ghost predicate HistoryOk(init: State, s: State)
  {
    && NoRepeats(s.started)
    && (forall id :: id in s.started ==> id in GraphIds(s.graph) && BlockPropagation.Waiting(init.snapshot, id))
    && (forall id :: id in s.inFlight ==> id in s.started)
    && (forall id :: id in s.saves ==> id in s.started)
    && (forall id :: id in s.results <==> id in s.started && !(id in s.inFlight && s.inFlight[id].Working?))
  }

  /** What the snapshot says of a task. */
  predicate SnapshotEntry(init: State, s: State, id: TaskId)
    requires id in init.snapshot && id in s.snapshot
  {
    if id in s.started then
      s.snapshot[id] == if s.shared && id in s.results then Outcome(s.results[id]) else Running
    else
      || s.snapshot[id] == init.snapshot[id]
      || (s.shared && BlockPropagation.Waiting(init.snapshot, id) && s.snapshot[id].BlockedByUpstream?)
  }

  function Outcome(ok: bool): Status
  {
    if ok then Completed else Failed
  }

  predicate SnapshotOk(init: State, s: State)
  {
    && s.snapshot.Keys == init.snapshot.Keys
    && forall id :: id in init.snapshot ==> SnapshotEntry(init, s, id)
  }

  /** Every dependency of a started task is completed in the snapshot. */
  predicate DepsOk(s: State)
  {
    forall i :: 0 <= i < |s.graph| && s.graph[i].id in s.started ==> DepsDone(s.snapshot, s.graph[i])
  }

  predicate PastLoop(main: Main)
  {
    main.Draining? || main.Judged? || main.Recording? || main.Finished?
  }

  predicate NothingLaunchable(s: State)
  {
    forall i :: 0 <= i < |s.graph| ==> !Launchable(s, s.graph[i])
  }

  predicate MainOk(s: State)
  {
    && (s.main.Waiting? ==> s.main.awaited != {} && forall id :: id in s.main.awaited ==> id in s.started)
    && (PastLoop(s.main) && !s.abort ==> s.inFlight == map[] && NothingLaunchable(s))
    && (PastLoop(s.main) && !s.main.Draining? ==> s.inFlight == map[])
  }

  /** A recorded status is the first one, "running" for a started task, what its runner gave,
      or "blocked" downstream of a task whose runner failed. */
  ghost predicate TrueEntry(init: State, s: State, id: TaskId, status: Status)
  {
    || (id in init.snapshot && status == init.snapshot[id])
    || (id in s.started && status == Running)
    || (id in s.results && status == Outcome(s.results[id]))
    || (status == BlockedByUpstream && BlockPropagation.Waiting(init.snapshot, id) &&
        exists f :: f in s.results && !s.results[f] && Downstream(s.graph, f, id))
  }

  ghost predicate TrueRecord(init: State, s: State, tasks: Statuses)
  {
    && tasks.Keys == init.snapshot.Keys
    && forall id :: id in tasks ==> TrueEntry(init, s, id, tasks[id])
  }

  ghost predicate RecordsOk(init: State, s: State)
  {
    && TrueRecord(init, s, s.snapshot)
    && TrueRecord(init, s, s.store.tasks)
    && (forall id :: id in s.inFlight && s.inFlight[id].Saving? ==> TrueRecord(init, s, s.inFlight[id].copy.tasks))
    && (forall id :: id in s.saves && s.saves[id].Writing? ==> TrueRecord(init, s, s.saves[id].copy.tasks))
    && (s.main.Recording? ==> TrueRecord(init, s, s.main.copy.tasks))
  }

  /** A reported outcome is borne out by what the runners gave. */
  ghost predicate OutcomeTrue(init: State, s: State, outcome: RunStatus)
  {
    && (outcome == RunCompleted ==>
          forall i :: 0 <= i < |s.graph| ==> WellDone(init, s, s.graph[i].id))
    && (outcome == RunFailed ==>
          exists id :: WentWrong(init.snapshot, id) || (id in s.results && !s.results[id]))
  }

  predicate WellDone(init: State, s: State, id: TaskId)
  {
    || (id in init.snapshot && (init.snapshot[id].Completed? || init.snapshot[id].Skipped?))
    || (id in s.results && s.results[id])
  }

  ghost predicate OutcomeOk(init: State, s: State)
  {
    s.main.Judged? || s.main.Recording? || s.main.Finished? ==> OutcomeTrue(init, s, s.main.outcome)
  }

  ghost predicate Inv(init: State, s: State)
  {
    && SameConfig(init, s)
    && Bounded(s)
    && HistoryOk(init, s)
    && SnapshotOk(init, s)
    && DepsOk(s)
    && MainOk(s)
    && RecordsOk(init, s)
    && OutcomeOk(init, s)
  }

  // ---- the three kinds of step --------------------------------------------------------------

  ghost predicate Launches(s: State, s': State)
  {
    exists i :: 0 <= i < |s.graph| && Launchable(s, s.graph[i]) && s' == Launch(s, s.graph[i])
  }

  /** Neither a launch nor an answer: what remains in flight remains as busy as it was. */
  predicate Quiet(s: State, s': State)
  {
    && s'.graph == s.graph && s'.maxParallel == s.maxParallel && s'.shared == s.shared
    && s'.snapshot == s.snapshot && s'.started == s.started && s'.results == s.results
    && (forall id :: id in s'.inFlight ==> id in s.inFlight)
    && (forall id :: id in s.inFlight && s.inFlight[id].Working? ==> id in s'.inFlight)
    && (forall id :: id in s'.inFlight ==> s'.inFlight[id].Working? == s.inFlight[id].Working?)
    && (forall id :: id in s'.saves ==> id in s.saves)
  }

  lemma LaunchOrNothing(s: State)
    ensures LaunchStep(s) == s || Launches(s, LaunchStep(s))
  {
    var r := Pick(s, 0);
    hide Pick, Launchable;
    if r.Some? {
      assert Launchable(s, s.graph[r.value]);
    }
  }

  lemma StepKinds(s: State, step: Step)
    ensures
      || Launches(s, Next(s, step))
      || (step.Finish? && AtWork(s, step.id) && Next(s, step) == FinishStep(s, step.id, step.ok))
      || Quiet(s, Next(s, step))
  {
    if step.LaunchNext? {
      LaunchOrNothing(s);
    } else if step.Finish? {
      hide FinishStep, Launches;
    } else if step.SaveResult? || step.Leave? {
      hide Launches;
      TaskStepsAreQuiet(s, step);
    } else {
      hide Launches;
      MainStepsAreQuiet(s, step);
    }
  }

  lemma TaskStepsAreQuiet(s: State, step: Step)
    requires step.SaveResult? || step.Leave?
    ensures Quiet(s, Next(s, step))
    ensures Next(s, step).main == s.main && Next(s, step).abort == s.abort
  {
    var id := step.id;
    if step.Leave? {
      assert Next(s, step) == LeaveStep(s, id);
      hide Next;
      if Busy(s, id) && s.inFlight[id].Closing? {
      } else {
      }
    } else {
      assert Next(s, step) == SaveResultStep(s, id);
      hide Next;
      if Busy(s, id) && s.inFlight[id].Saving? && !s.shared {
      } else {
      }
    }
  }

  predicate SameTasks(s: State, s': State)
  {
    && s'.graph == s.graph && s'.maxParallel == s.maxParallel && s'.shared == s.shared
    && s'.snapshot == s.snapshot && s'.started == s.started && s'.results == s.results
    && s'.inFlight == s.inFlight && s'.saves.Keys <= s.saves.Keys
  }

  lemma SameTasksIsQuiet(s: State, s': State)
    requires SameTasks(s, s')
    ensures Quiet(s, s')
  {
  }

  lemma MainStepsAreQuiet(s: State, step: Step)
    requires !(step.LaunchNext? || step.Finish? || step.SaveResult? || step.Leave?)
    ensures Quiet(s, Next(s, step)) && SameTasks(s, Next(s, step))
  {
    hide Pick, Verdict, Quiet;
    SameTasksIsQuiet(s, Next(s, step)) by {
      hide SameTasks;
      if step.Serialise? || step.Flush? {
        SavesKeepTasks(s, step);
      } else {
        MainStepsKeepTasks(s, step);
      }
    }
  }

  lemma SavesKeepTasks(s: State, step: Step)
    requires step.Serialise? || step.Flush?
    ensures SameTasks(s, Next(s, step))
  {
  }

  lemma MainStepsKeepTasks(s: State, step: Step)
    requires step.EndSweep? || step.Wake? || step.Judge? || step.Reread? || step.Record? || step.Cancel?
    ensures SameTasks(s, Next(s, step))
  {
    SweepKeepsTasks(s);
    VerdictKeepsTasks(s);
    RecordKeepsTasks(s);
    hide LaunchStep, EndSweepStep, WakeStep, JudgeStep, RereadStep, RecordStep, FinishStep, SaveResultStep, LeaveStep;
    hide SerialiseStep, FlushStep;
    if step.Cancel? {
    } else {
      hide SameTasks;
    }
  }

  lemma SweepKeepsTasks(s: State)
    ensures SameTasks(s, EndSweepStep(s)) && SameTasks(s, WakeStep(s))
  {
    hide Pick;
  }

  lemma VerdictKeepsTasks(s: State)
    ensures SameTasks(s, JudgeStep(s)) && SameTasks(s, RereadStep(s))
  {
    hide Verdict;
  }

  lemma RecordKeepsTasks(s: State)
    ensures SameTasks(s, RecordStep(s))
  {
  }

  lemma MainStepsKeepSaves(s: State, step: Step)
    requires step.EndSweep? || step.Wake? || step.Judge? || step.Reread? || step.Record? || step.Cancel?
    ensures Next(s, step).saves == s.saves
  {
    hide Pick, Verdict;
  }

  // ---- every step keeps them ----------------------------------------------------------------

  lemma NextKeepsBounded(s: State, step: Step)
    requires Bounded(s)
    ensures Bounded(Next(s, step)) && SameConfig(s, Next(s, step))
  {
    var s' := Next(s, step);
    StepKinds(s, step);
    hide Next, Pick, WithResult, Launchable;
    if Launches(s, s') {
      var i :| 0 <= i < |s.graph| && Launchable(s, s.graph[i]) && s' == Launch(s, s.graph[i]);
      LaunchKeepsBounded(s, i);
    } else {
      FewerKeys(s, s');
    }
  }

  lemma FewerKeys(s: State, s': State)
    requires Bounded(s) && s'.graph == s.graph && s'.maxParallel == s.maxParallel
    requires s'.inFlight.Keys <= s.inFlight.Keys
    ensures Bounded(s')
  {
    FewerElements(s'.inFlight.Keys, s.inFlight.Keys);
  }

  lemma FewerElements(a: set<TaskId>, b: set<TaskId>)
    requires a <= b
    ensures |a| <= |b|
  {
    assert b == a + (b - a);
  }

  lemma LaunchKeepsBounded(s: State, i: nat)
    requires i < |s.graph| && Launchable(s, s.graph[i])
    ensures Bounded(Launch(s, s.graph[i]))
  {
    var id := s.graph[i].id;
    OneMoreKey(s.inFlight, id, Working);
    assert s.graph[i].parallelSafe ==> ParallelSafe(s.graph, id);
    assert s.graph[i].parallelSafe || s.inFlight.Keys == {};
    assert HasRoom(s) && id !in s.inFlight;
    hide Launchable, ParallelSafe;
  }

  lemma OneMoreKey(m: map<TaskId, Work>, id: TaskId, w: Work)
    requires id !in m
    ensures |m[id := w]| == |m| + 1 && m[id := w].Keys == m.Keys + {id}
  {
    assert m[id := w].Keys == m.Keys + {id};
  }

  lemma NextKeepsHistory(init: State, s: State, step: Step)
    requires HistoryOk(init, s) && SnapshotOk(init, s)
    ensures HistoryOk(init, Next(s, step))
  {
    var s' := Next(s, step);
    StepKinds(s, step);
    hide Next, Pick, WithResult, Launchable, SnapshotOk;
    if Launches(s, s') {
      var i :| 0 <= i < |s.graph| && Launchable(s, s.graph[i]) && s' == Launch(s, s.graph[i]);
      hide HistoryOk, Launch;
      LaunchKeepsHistory(init, s, i);
    } else if Quiet(s, s') {
      QuietKeepsHistory(init, s, s');
    } else {
      FinishKeepsHistory(init, s, step.id, step.ok);
    }
  }

  lemma QuietKeepsHistory(init: State, s: State, s': State)
    requires HistoryOk(init, s) && Quiet(s, s')
    ensures HistoryOk(init, s')
  {
    hide NoRepeats;
  }

  lemma FinishKeepsHistory(init: State, s: State, id: TaskId, ok: bool)
    requires HistoryOk(init, s) && AtWork(s, id)
    ensures HistoryOk(init, FinishStep(s, id, ok))
  {
    hide NoRepeats, WithResult;
  }

  lemma InGraph(graph: seq<Task>, i: nat)
    requires i < |graph|
    ensures graph[i].id in GraphIds(graph)
  {
  }

  lemma OneMoreId(ids: seq<TaskId>, id: TaskId)
    requires NoRepeats(ids) && id !in ids
    ensures NoRepeats(ids + [id])
    ensures forall x :: x in ids + [id] <==> x in ids || x == id
  {
  }

  lemma OneMoreStarted(init: State, s: State, s': State, id: TaskId)
    requires HistoryOk(init, s) && id in GraphIds(s.graph) && BlockPropagation.Waiting(init.snapshot, id)
    requires id !in s.started && s'.started == s.started + [id] && s'.inFlight == s.inFlight[id := Working]
    requires s'.results == s.results && s'.saves == s.saves[id := Queued] && s'.graph == s.graph
    ensures HistoryOk(init, s')
  {
    OneMoreId(s.started, id);
    hide NoRepeats, GraphIds, BlockPropagation.Waiting;
  }

  lemma LaunchKeepsHistory(init: State, s: State, i: nat)
    requires HistoryOk(init, s) && SnapshotOk(init, s) && i < |s.graph| && Launchable(s, s.graph[i])
    ensures HistoryOk(init, Launch(s, s.graph[i]))
  {
    LaunchedWasWaiting(init, s, s.graph[i]);
    InGraph(s.graph, i);
    hide Launchable, SnapshotOk, BlockPropagation.Waiting, GraphIds, HistoryOk;
    OneMoreStarted(init, s, Launch(s, s.graph[i]), s.graph[i].id);
  }

  lemma LaunchedWasWaiting(init: State, s: State, task: Task)
    requires SnapshotOk(init, s) && Launchable(s, task)
    ensures task.id !in s.started && BlockPropagation.Waiting(init.snapshot, task.id)
  {
    hide DepsDone, HasRoom;
    assert SnapshotEntry(init, s, task.id);
  }

  /** A task's result changes its own entry and blocks only waiting tasks downstream of it. */
  lemma WithResultEntries(graph: seq<Task>, tasks: Statuses, id: TaskId, ok: bool)
    requires id in tasks
    ensures
      var r := WithResult(graph, tasks, id, ok);
      && r.Keys == tasks.Keys
      && r[id] == Outcome(ok)
      && forall x :: x in tasks && x != id && r[x] != tasks[x] ==>
           !ok && BlockPropagation.Waiting(tasks, x) && r[x] == BlockedByUpstream && Downstream(graph, id, x)
  {
    if !ok {
      LiveTasksAreBlocked(graph, id, tasks[id := Failed]);
      hide Propagate, LiveDownstream, Downstream;
    }
  }

  lemma NextKeepsSnapshot(init: State, s: State, step: Step)
    requires HistoryOk(init, s) && SnapshotOk(init, s)
    ensures SnapshotOk(init, Next(s, step))
  {
    var s' := Next(s, step);
    StepKinds(s, step);
    hide Next, Pick, WithResult, Launchable, SnapshotOk, HistoryOk;
    if Launches(s, s') {
      var i :| 0 <= i < |s.graph| && Launchable(s, s.graph[i]) && s' == Launch(s, s.graph[i]);
      hide Launch;
      LaunchKeepsSnapshot(init, s, i);
    } else if Quiet(s, s') {
      SnapshotSame(init, s, s');
    } else {
      FinishKeepsSnapshot(init, s, step.id, step.ok);
    }
  }

  lemma SnapshotSame(init: State, s: State, s': State)
    requires SnapshotOk(init, s) && s'.snapshot == s.snapshot && s'.started == s.started && s'.results == s.results
    requires s'.shared == s.shared
    ensures SnapshotOk(init, s')
  {
    forall id | id in init.snapshot
      ensures SnapshotEntry(init, s', id)
    {
      assert SnapshotEntry(init, s, id);
    }
  }

  lemma LaunchKeepsSnapshot(init: State, s: State, i: nat)
    requires HistoryOk(init, s) && SnapshotOk(init, s) && i < |s.graph| && Launchable(s, s.graph[i])
    ensures SnapshotOk(init, Launch(s, s.graph[i]))
  {
    LaunchedWasWaiting(init, s, s.graph[i]);
    LaunchedEntries(init, s, s.graph[i]);
  }

  lemma LaunchedEntries(init: State, s: State, task: Task)
    requires task.id in init.snapshot && SnapshotOk(init, s)
    requires task.id !in s.results
    ensures SnapshotOk(init, Launch(s, task))
  {
    var s' := Launch(s, task);
    forall id | id in init.snapshot
      ensures SnapshotEntry(init, s', id)
    {
      assert SnapshotEntry(init, s, id);
    }
  }

  lemma EntryAfterResult(init: State, s: State, s': State, id: TaskId, ok: bool, x: TaskId)
    requires x in init.snapshot && x in s.snapshot && SnapshotEntry(init, s, x)
    requires id in s.started && id !in s.results
    requires s'.shared == s.shared && s'.started == s.started && s'.results == s.results[id := ok]
    requires s'.snapshot.Keys == s.snapshot.Keys && (!s.shared ==> s'.snapshot == s.snapshot)
    requires s.shared ==>
               if x == id then s'.snapshot[x] == Outcome(ok)
               else s'.snapshot[x] == s.snapshot[x]
                    || (BlockPropagation.Waiting(s.snapshot, x) && s'.snapshot[x].BlockedByUpstream?)
    ensures SnapshotEntry(init, s', x)
  {
  }

  lemma FinishKeepsSnapshot(init: State, s: State, id: TaskId, ok: bool)
    requires HistoryOk(init, s) && SnapshotOk(init, s) && AtWork(s, id)
    ensures SnapshotOk(init, FinishStep(s, id, ok))
  {
    var s' := FinishStep(s, id, ok);
    hide WithResult, Downstream;
    assert id in s.started && id in s.snapshot && id !in s.results;
    hide HistoryOk;
    WithResultEntries(s.graph, s.snapshot, id, ok);
    assert s'.shared == s.shared && s'.started == s.started && s'.results == s.results[id := ok];
    assert s'.snapshot == if s.shared then WithResult(s.graph, s.snapshot, id, ok) else s.snapshot;
    hide FinishStep, SnapshotEntry;
    forall x | x in init.snapshot
      ensures SnapshotEntry(init, s', x)
    {
      EntryAfterResult(init, s, s', id, ok, x);
    }
  }

  /** A completed task stays completed in the snapshot. */
  lemma DoneStays(init: State, s: State, step: Step, d: TaskId)
    requires HistoryOk(init, s) && SnapshotOk(init, s) && Done(s.snapshot, d)
    ensures Done(Next(s, step).snapshot, d)
  {
    var s' := Next(s, step);
    StepKinds(s, step);
    hide Next, Pick, WithResult;
    if Launches(s, s') {
      hide HasRoom, DepsDone, HistoryOk, SnapshotOk;
    } else if !Quiet(s, s') {
      DoneOutlivesFinish(init, s, step.id, step.ok, d);
    }
  }

  lemma DoneOutlivesFinish(init: State, s: State, id: TaskId, ok: bool, d: TaskId)
    requires HistoryOk(init, s) && SnapshotOk(init, s) && Done(s.snapshot, d) && AtWork(s, id)
    ensures Done(FinishStep(s, id, ok).snapshot, d)
  {
    assert id in s.started && id in s.snapshot && id !in s.results && s.snapshot[id] == Running by {
      assert SnapshotEntry(init, s, id);
    }
    hide HistoryOk, SnapshotOk;
    WithResultEntries(s.graph, s.snapshot, id, ok);
    hide WithResult, Downstream;
  }

  lemma NextKeepsDeps(init: State, s: State, step: Step)
    requires UniqueIds(s.graph) && HistoryOk(init, s) && SnapshotOk(init, s) && DepsOk(s)
    ensures DepsOk(Next(s, step))
  {
    var s' := Next(s, step);
    StepKinds(s, step);
    hide Next, Pick, WithResult, SnapshotOk, HistoryOk;
    forall i | 0 <= i < |s'.graph| && s'.graph[i].id in s'.started
      ensures DepsDone(s'.snapshot, s'.graph[i])
    {
      assert DepsDone(s.snapshot, s.graph[i]) by {
        hide DepsDone, HasRoom;
      }
      forall d | d in s.graph[i].dependsOn
        ensures Done(s'.snapshot, d)
      {
        DoneStays(init, s, step, d);
      }
    }
  }

  lemma NextKeepsMain(init: State, s: State, step: Step)
    requires HistoryOk(init, s) && MainOk(s)
    ensures MainOk(Next(s, step))
  {
    var s' := Next(s, step);
    hide Verdict, WithResult, NothingLaunchable;
    if step.LaunchNext? {
      hide Pick, Launch;
    } else if step.EndSweep? {
      EndSweepKeepsMain(init, s);
    } else if step.Finish? || step.SaveResult? || step.Leave? {
      BusyKeepsMain(s, step);
    } else {
      MainStepsAreQuiet(s, step);
      hide HistoryOk, Quiet;
      SameLaunchable(s, s');
    }
  }

  lemma EndSweepKeepsMain(init: State, s: State)
    requires HistoryOk(init, s) && MainOk(s)
    ensures MainOk(EndSweepStep(s))
  {
    var s' := EndSweepStep(s);
    if s.main.Evaluating? && !s.abort && s' != s {
      assert NothingLaunchable(s);
      hide NothingLaunchable, Pick;
      SameLaunchable(s, s');
    }
    hide NoRepeats, Pick, NothingLaunchable;
  }

  lemma BusyKeepsMain(s: State, step: Step)
    requires MainOk(s) && (step.Finish? || step.SaveResult? || step.Leave?)
    ensures MainOk(Next(s, step))
  {
    hide WithResult, NothingLaunchable;
    StepKinds(s, step);
  }

  lemma SameLaunchable(s: State, s': State)
    requires s'.graph == s.graph && s'.maxParallel == s.maxParallel
    requires s'.inFlight == s.inFlight && s'.snapshot == s.snapshot
    ensures NothingLaunchable(s') == NothingLaunchable(s)
  {
    assert forall i :: 0 <= i < |s.graph| ==> Launchable(s', s.graph[i]) == Launchable(s, s.graph[i]);
  }

  // ---- recorded statuses are true -----------------------------------------------------------

  /** Later in the run the history has only grown. */
  predicate HistoryGrows(s: State, s': State)
  {
    && s'.graph == s.graph
    && (forall id :: id in s.started ==> id in s'.started)
    && (forall id :: id in s.results ==> id in s'.results && s'.results[id] == s.results[id])
  }

  lemma NextGrowsHistory(init: State, s: State, step: Step)
    requires HistoryOk(init, s)
    ensures HistoryGrows(s, Next(s, step))
  {
    StepKinds(s, step);
    hide Next, Pick, WithResult, Launchable, NoRepeats;
  }

  lemma TrueRecordStays(init: State, s: State, s': State, tasks: Statuses)
    requires HistoryGrows(s, s') && TrueRecord(init, s, tasks)
    ensures TrueRecord(init, s', tasks)
  {
    hide Downstream;
    forall id | id in tasks
      ensures TrueEntry(init, s', id, tasks[id])
    {
      assert TrueEntry(init, s, id, tasks[id]);
    }
  }

  lemma WithResultIsTrue(init: State, s: State, id: TaskId, ok: bool)
    requires HistoryOk(init, s) && RecordsOk(init, s) && AtWork(s, id)
    ensures TrueRecord(init, FinishStep(s, id, ok), WithResult(s.graph, Current(s).tasks, id, ok))
  {
    var s' := FinishStep(s, id, ok);
    hide HistoryOk, FinishStep, HistoryGrows, Next, WithResult, TrueRecord;
    assert TrueRecord(init, s, Current(s).tasks);
    hide RecordsOk, Current;
    TrueRecordsStay(init, s, Finish(id, ok));
    FinishedIsKnown(init, s, id, ok);
    NextIsFinish(s, id, ok);
    UpdatedIsTrue(init, s', Current(s).tasks, id, ok);
  }

  lemma FinishedIsKnown(init: State, s: State, id: TaskId, ok: bool)
    requires HistoryOk(init, s) && RecordsOk(init, s) && AtWork(s, id)
    ensures id in Current(s).tasks
    ensures
      var s' := FinishStep(s, id, ok);
      id in s'.results && s'.results[id] == ok && s'.graph == s.graph
  {
    hide TrueEntry, WithResult;
    assert id in s.started && id in init.snapshot;
  }

  lemma UpdatedIsTrue(init: State, s: State, before: Statuses, id: TaskId, ok: bool)
    requires TrueRecord(init, s, before) && id in before && id in s.results && s.results[id] == ok
    ensures TrueRecord(init, s, WithResult(s.graph, before, id, ok))
  {
    var after := WithResult(s.graph, before, id, ok);
    WithResultEntries(s.graph, before, id, ok);
    hide WithResult, Downstream;
    forall x | x in after
      ensures TrueEntry(init, s, x, after[x])
    {
      assert TrueEntry(init, s, x, before[x]);
    }
  }

  lemma TrueRecordsStay(init: State, s: State, step: Step)
    requires HistoryOk(init, s)
    ensures HistoryGrows(s, Next(s, step))
    ensures forall tasks :: TrueRecord(init, s, tasks) ==> TrueRecord(init, Next(s, step), tasks)
  {
    NextGrowsHistory(init, s, step);
    hide HistoryOk, HistoryGrows, TrueRecord, Next;
    forall tasks | TrueRecord(init, s, tasks)
      ensures TrueRecord(init, Next(s, step), tasks)
    {
      TrueRecordStays(init, s, Next(s, step), tasks);
    }
  }

  lemma NextKeepsRecords(init: State, s: State, step: Step)
    requires HistoryOk(init, s) && RecordsOk(init, s)
    ensures RecordsOk(init, Next(s, step))
  {
    hide HistoryGrows, TrueRecord, HistoryOk, RecordsOk, LaunchStep, WithResult;
    TrueRecordsStay(init, s, step);
    if step.LaunchNext? {
      LaunchKeepsRecords(init, s);
    } else if step.Finish? {
      if AtWork(s, step.id) {
        hide FinishStep;
        FinishKeepsRecords(init, s, step.id, step.ok);
      }
    } else {
      hide Next;
      OthersKeepRecords(init, s, step);
    }
  }

  lemma FinishKeepsRecords(init: State, s: State, id: TaskId, ok: bool)
    requires HistoryOk(init, s) && RecordsOk(init, s) && AtWork(s, id)
    requires forall tasks :: TrueRecord(init, s, tasks) ==> TrueRecord(init, FinishStep(s, id, ok), tasks)
    ensures RecordsOk(init, FinishStep(s, id, ok))
  {
    WithResultIsTrue(init, s, id, ok);
    hide WithResult, HistoryOk, TrueRecord;
  }

  lemma LaunchKeepsRecords(init: State, s: State)
    requires RecordsOk(init, s) && HistoryGrows(s, LaunchStep(s))
    requires forall tasks :: TrueRecord(init, s, tasks) ==> TrueRecord(init, LaunchStep(s), tasks)
    ensures RecordsOk(init, LaunchStep(s))
  {
    LaunchOrNothing(s);
    if LaunchStep(s) != s {
      LaunchedSnapshotIsTrue(init, s);
    }
    hide Pick, Launchable, TrueRecord, HistoryGrows;
  }

  lemma OthersKeepRecords(init: State, s: State, step: Step)
    requires RecordsOk(init, s) && !step.LaunchNext? && !step.Finish?
    requires forall tasks :: TrueRecord(init, s, tasks) ==> TrueRecord(init, Next(s, step), tasks)
    ensures RecordsOk(init, Next(s, step))
  {
    hide TrueRecord, Pick, Verdict;
  }

  lemma LaunchedSnapshotIsTrue(init: State, s: State)
    requires HistoryGrows(s, LaunchStep(s)) && TrueRecord(init, s, s.snapshot) && Launches(s, LaunchStep(s))
    ensures TrueRecord(init, LaunchStep(s), LaunchStep(s).snapshot)
  {
    var s' := LaunchStep(s);
    var i :| 0 <= i < |s.graph| && Launchable(s, s.graph[i]) && s' == Launch(s, s.graph[i]);
    assert s.graph[i].id in s.snapshot && s.graph[i].id in s'.started;
    TrueRecordStays(init, s, s', s.snapshot);
    hide Downstream, LaunchStep, Launchable, HistoryGrows;
    forall id | id in s'.snapshot
      ensures TrueEntry(init, s', id, s'.snapshot[id])
    {
      assert id == s.graph[i].id || TrueEntry(init, s', id, s.snapshot[id]);
    }
  }

  // ---- outcomes are true --------------------------------------------------------------------

  lemma VerdictIsTrue(init: State, s: State)
    requires TrueRecord(init, s, Current(s).tasks)
    ensures OutcomeTrue(init, s, Verdict(s.graph, s.abort, Current(s).tasks))
  {
    var tasks := Current(s).tasks;
    var outcome := Verdict(s.graph, s.abort, tasks);
    hide Downstream;
    if outcome == RunCompleted {
      forall i | 0 <= i < |s.graph|
        ensures WellDone(init, s, s.graph[i].id)
      {
        assert Settled(tasks, s.graph[i].id) && !WentWrong(tasks, s.graph[i].id);
        assert TrueEntry(init, s, s.graph[i].id, tasks[s.graph[i].id]);
      }
    } else if outcome == RunFailed {
      var i :| 0 <= i < |s.graph| && WentWrong(tasks, s.graph[i].id);
      WrongEntryIsTrue(init, s, s.graph[i].id, tasks[s.graph[i].id]);
    }
  }

  /** Behind a failed or blocked entry is a runner that failed, or the record had it from the beginning. */
  lemma WrongEntryIsTrue(init: State, s: State, id: TaskId, status: Status)
    requires TrueEntry(init, s, id, status) && (status.Failed? || status.BlockedByUpstream?)
    ensures exists f :: WentWrong(init.snapshot, f) || (f in s.results && !s.results[f])
  {
    if id in init.snapshot && status == init.snapshot[id] {
      assert WentWrong(init.snapshot, id);
    } else if id in s.results && status == Outcome(s.results[id]) {
      assert !s.results[id];
    } else {
      var f :| f in s.results && !s.results[f] && Downstream(s.graph, f, id);
    }
  }

  lemma OutcomeStays(init: State, s: State, s': State, outcome: RunStatus)
    requires HistoryGrows(s, s') && OutcomeTrue(init, s, outcome)
    ensures OutcomeTrue(init, s', outcome)
  {
    if outcome == RunCompleted {
      forall i | 0 <= i < |s'.graph|
        ensures WellDone(init, s', s'.graph[i].id)
      {
        assert WellDone(init, s, s.graph[i].id);
      }
    }
  }

  lemma NextKeepsOutcome(init: State, s: State, step: Step)
    requires HistoryOk(init, s) && RecordsOk(init, s) && OutcomeOk(init, s)
    ensures OutcomeOk(init, Next(s, step))
  {
    var s' := Next(s, step);
    NextGrowsHistory(init, s, step);
    hide HistoryOk, HistoryGrows;
    if step.Judge? && s' != s {
      VerdictIsTrue(init, s);
      hide Verdict, OutcomeTrue;
      OutcomeStays(init, s, s', s'.main.outcome);
    } else {
      hide OutcomeTrue, RecordsOk;
      if s.main.Judged? || s.main.Recording? || s.main.Finished? {
        OutcomeStays(init, s, s', s.main.outcome);
      }
      MainKeepsOutcome(s, step);
    }
  }

  lemma MainKeepsOutcome(s: State, step: Step)
    ensures
      var s' := Next(s, step);
      || (step.Judge? && s' != s)
      || !(s'.main.Judged? || s'.main.Recording? || s'.main.Finished?)
      || ((s.main.Judged? || s.main.Recording? || s.main.Finished?) && s'.main.outcome == s.main.outcome)
  {
    hide Verdict, Pick, WithResult;
  }

  lemma NextKeepsInv(init: State, s: State, step: Step)
    requires UniqueIds(init.graph) && Inv(init, s)
    ensures Inv(init, Next(s, step))
  {
    hide Bounded, HistoryOk, SnapshotOk, DepsOk, MainOk, RecordsOk, OutcomeOk, Next;
    NextKeepsBounded(s, step);
    NextKeepsHistory(init, s, step);
    NextKeepsSnapshot(init, s, step);
    NextKeepsDeps(init, s, step);
    NextKeepsMain(init, s, step);
    NextKeepsRecords(init, s, step);
    NextKeepsOutcome(init, s, step);
  }

  lemma InitIsInv(init: State)
    requires Init(init)
    ensures Inv(init, init)
  {
    assert TrueRecord(init, init, init.snapshot);
  }

  /** Every run, whatever the order of launches, results, saves and cancels, keeps the invariant. */
  lemma {:induction false} RunKeepsInv(init: State, steps: seq<Step>)
    requires Init(init)
    ensures Inv(init, Run(init, steps))
    decreases |steps|
  {
    if steps == [] {
      InitIsInv(init);
    } else {
      RunKeepsInv(init, steps[..|steps| - 1]);
      hide Inv, Next;
      NextKeepsInv(init, Run(init, steps[..|steps| - 1]), steps[|steps| - 1]);
    }
  }
}
