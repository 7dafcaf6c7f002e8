/** When a store that re-reads its file keeps a result: `ResultStaysIff` for every reachable state,
    `NoResultIsLostIff` and `NoOutcomeIsLostIff` for what can be known before `execute` begins. */
module SchedulerKeeps {
  import opened BlockPropagation
  import opened RunScheduler
  import opened SchedulerRuns
  import opened SchedulerResults
  import opened SchedulerForgets

  predicate SavedAs(tasks: Statuses, id: TaskId, status: Status)
  {
    id in tasks && tasks[id] == status
  }

  /** The store holds what the runner of `id` gave. */
  predicate Recorded(s: State, id: TaskId)
  {
    id in s.results && SavedAs(Current(s).tasks, id, Outcome(s.results[id]))
  }

  /** ... and so does every copy a task or the main loop is about to save. */
  predicate Kept(s: State, id: TaskId)
  {
    && !s.shared && Recorded(s, id)
    && (forall x :: x in s.inFlight && s.inFlight[x].Saving? ==>
          SavedAs(s.inFlight[x].copy.tasks, id, Outcome(s.results[id])))
    && (s.main.Recording? ==> SavedAs(s.main.copy.tasks, id, Outcome(s.results[id])))
  }

  /** Every task that was ready at the beginning has started. */
  ghost predicate AllStarted(init: State, s: State)
  {
    forall id :: BlockPropagation.Waiting(init.snapshot, id) && Ready(init.graph, init.snapshot, id) ==> id in s.started
  }

  /** Nothing that may still be written says anything else: no save of a launch is under way and there will
      be no more launches. */
  ghost predicate Safe(init: State, s: State, id: TaskId)
  {
    Kept(s, id) && s.saves == map[] && (s.abort || PastLoop(s.main) || AllStarted(init, s))
  }

  // ---- safe results stay ------------------------------------------------------------------------

  lemma NothingMoreIsLaunched(init: State, s: State)
    requires Inv(init, s) && !s.shared && (s.abort || PastLoop(s.main) || AllStarted(init, s))
    ensures LaunchStep(s) == s
  {
    LaunchOrNothing(s);
    SameDone(init, s);
    assert SnapshotOk(init, s) && SameConfig(init, s);
    hide Inv;
    if Launches(s, LaunchStep(s)) {
      var i :| 0 <= i < |s.graph| && Launchable(s, s.graph[i]) && LaunchStep(s) == Launch(s, s.graph[i]);
      hide LaunchStep;
      LaunchableWasReady(init, s, i);
    }
  }

  lemma LaunchableWasReady(init: State, s: State, i: nat)
    requires SnapshotOk(init, s) && SameConfig(init, s) && i < |s.graph| && Launchable(s, s.graph[i])
    requires forall d :: Done(s.snapshot, d) == Done(init.snapshot, d)
    ensures s.graph[i].id !in s.started
    ensures BlockPropagation.Waiting(init.snapshot, s.graph[i].id) && Ready(init.graph, init.snapshot, s.graph[i].id)
  {
    LaunchedWasWaiting(init, s, s.graph[i]);
    assert DepsDone(init.snapshot, init.graph[i]);
  }

  lemma FinishKeeps(s: State, x: TaskId, ok: bool, id: TaskId)
    requires Kept(s, id) && (id in s.inFlight ==> !s.inFlight[id].Working?)
    ensures Kept(FinishStep(s, x, ok), id)
  {
    if AtWork(s, x) {
      ResultKeepsOthers(s.graph, s.store.tasks, x, ok, id, Outcome(s.results[id]));
      hide WithResult, SavedAs;
    }
  }

  lemma ResultKeepsOthers(graph: seq<Task>, tasks: Statuses, x: TaskId, ok: bool, id: TaskId, status: Status)
    requires SavedAs(tasks, id, status) && x != id && (status.Completed? || status.Failed?)
    ensures SavedAs(WithResult(graph, tasks, x, ok), id, status)
  {
    if !ok {
      LiveTasksAreBlocked(graph, x, tasks[x := Failed]);
    }
  }

  lemma OthersKeep(s: State, step: Step, id: TaskId)
    requires Kept(s, id) && s.saves == map[] && !step.LaunchNext? && !step.Finish?
    ensures Kept(Next(s, step), id)
  {
    hide Verdict, Pick, SavedAs;
  }

  lemma MainGoesOn(s: State, step: Step)
    requires !step.Finish? && !step.LaunchNext?
    ensures s.abort ==> Next(s, step).abort
    ensures PastLoop(s.main) ==> PastLoop(Next(s, step).main)
  {
    hide Verdict, Pick;
  }

  lemma LoopStaysOver(s: State, step: Step)
    requires s.saves == map[] && !step.LaunchNext?
    ensures Next(s, step).saves == s.saves && Next(s, step).started == s.started
    ensures s.abort ==> Next(s, step).abort
    ensures PastLoop(s.main) ==> PastLoop(Next(s, step).main)
  {
    if step.Finish? {
      NextIsFinish(s, step.id, step.ok);
      hide Next, WithResult;
      if AtWork(s, step.id) {
      } else {
      }
    } else {
      StepKinds(s, step);
      MainGoesOn(s, step);
      hide Next;
    }
  }

  lemma NextKeepsSafe(init: State, s: State, step: Step, id: TaskId)
    requires Inv(init, s) && Safe(init, s, id)
    ensures Safe(init, Next(s, step), id)
  {
    hide Next, LaunchStep, FinishStep, Kept, PastLoop, AllStarted;
    SafeHasOwnStore(init, s, id);
    if step.LaunchNext? {
      NextIsLaunch(s);
      NothingMoreIsLaunched(init, s);
    } else {
      assert id in s.inFlight ==> !s.inFlight[id].Working? by { assert HistoryOk(init, s); }
      hide Inv;
      LoopStaysOver(s, step);
      if step.Finish? {
        NextIsFinish(s, step.id, step.ok);
        FinishKeeps(s, step.id, step.ok, id);
      } else {
        OthersKeep(s, step, id);
      }
      SafeAgain(init, s, Next(s, step), id);
    }
  }

  lemma SafeHasOwnStore(init: State, s: State, id: TaskId)
    requires Safe(init, s, id)
    ensures !s.shared && id in s.results
  {
  }

  lemma SafeAgain(init: State, s: State, s': State, id: TaskId)
    requires Safe(init, s, id) && Kept(s', id)
    requires s'.saves == s.saves && s'.started == s.started
    requires (s.abort ==> s'.abort) && (PastLoop(s.main) ==> PastLoop(s'.main))
    ensures Safe(init, s', id)
  {
    hide Kept, PastLoop;
  }

  lemma {:induction false} SafeStays(init: State, s: State, more: seq<Step>, id: TaskId)
    requires UniqueIds(init.graph) && Inv(init, s) && Safe(init, s, id)
    ensures Inv(init, Run(s, more)) && Safe(init, Run(s, more), id)
    decreases |more|
  {
    if more != [] {
      SafeStays(init, s, more[..|more| - 1], id);
      hide Inv, Safe, Next;
      NextKeepsInv(init, Run(s, more[..|more| - 1]), more[|more| - 1]);
      NextKeepsSafe(init, Run(s, more[..|more| - 1]), more[|more| - 1], id);
    }
  }

  // ---- all others can be lost -------------------------------------------------------------------

  /** What the saves of launches hold of a task that was waiting at first is no result. */
  ghost predicate SavesHoldNoResult(init: State, s: State)
  {
    forall x, id :: x in s.saves && s.saves[x].Writing? && BlockPropagation.Waiting(init.snapshot, id) ==>
      NoResult(s.saves[x].copy.tasks, id)
  }

  predicate NoResult(tasks: Statuses, id: TaskId)
  {
    id in tasks && !tasks[id].Completed? && !tasks[id].Failed?
  }

  lemma SnapshotHoldsNoResult(init: State, s: State, id: TaskId)
    requires Inv(init, s) && !s.shared && BlockPropagation.Waiting(init.snapshot, id)
    ensures NoResult(s.snapshot, id)
  {
    assert SnapshotEntry(init, s, id);
  }

  lemma NextKeepsNoResult(init: State, s: State, step: Step)
    requires Inv(init, s) && !s.shared && SavesHoldNoResult(init, s)
    ensures SavesHoldNoResult(init, Next(s, step))
  {
    forall id | BlockPropagation.Waiting(init.snapshot, id)
      ensures NoResult(s.snapshot, id)
    {
      SnapshotHoldsNoResult(init, s, id);
    }
    hide Inv, NoResult, SavesHoldNoResult, BlockPropagation.Waiting;
    if step.LaunchNext? {
      LaunchHoldsNoResult(init, s);
    } else if step.Serialise? || step.Flush? {
      SaveHoldsNoResult(init, s, step);
    } else {
      assert Next(s, step).saves == s.saves by { SavesAreTheSame(s, step); }
      hide Next;
      SameSaves(init, s, Next(s, step));
    }
  }

  lemma LaunchHoldsNoResult(init: State, s: State)
    requires SavesHoldNoResult(init, s)
    ensures SavesHoldNoResult(init, LaunchStep(s))
  {
    hide Pick, NoResult;
  }

  lemma SaveHoldsNoResult(init: State, s: State, step: Step)
    requires SavesHoldNoResult(init, s) && (step.Serialise? || step.Flush?)
    requires forall id :: BlockPropagation.Waiting(init.snapshot, id) ==> NoResult(s.snapshot, id)
    ensures SavesHoldNoResult(init, Next(s, step))
  {
    hide NoResult;
  }

  lemma SavesAreTheSame(s: State, step: Step)
    requires !step.LaunchNext? && !step.Serialise? && !step.Flush?
    ensures Next(s, step).saves == s.saves
  {
    hide WithResult, Verdict, Pick;
    if !step.Finish? && !step.SaveResult? && !step.Leave? {
      MainStepsKeepSaves(s, step);
    }
  }

  lemma SameSaves(init: State, s: State, s': State)
    requires SavesHoldNoResult(init, s) && s'.saves == s.saves
    ensures SavesHoldNoResult(init, s')
  {
  }

  lemma {:induction false} RunKeepsNoResult(init: State, steps: seq<Step>)
    requires Init(init) && !init.shared
    ensures SavesHoldNoResult(init, Run(init, steps))
    decreases |steps|
  {
    if steps != [] {
      RunKeepsNoResult(init, steps[..|steps| - 1]);
      RunKeepsInv(init, steps[..|steps| - 1]);
      var s := Run(init, steps[..|steps| - 1]);
      assert !s.shared by { assert SameConfig(init, s); }
      hide Inv, Next, SavesHoldNoResult;
      NextKeepsNoResult(init, s, steps[|steps| - 1]);
    }
  }

  ghost predicate CanBeLost(s: State, id: TaskId)
  {
    exists more :: !Recorded(Run(s, more), id)
  }

  lemma LostLater(s: State, step: Step, id: TaskId)
    requires CanBeLost(Next(s, step), id)
    ensures CanBeLost(s, id)
  {
    var more :| !Recorded(Run(Next(s, step), more), id);
    OneStep(s, step);
    RunSplits(s, [step], more);
  }

  lemma LostNow(s: State, id: TaskId)
    requires !Recorded(s, id)
    ensures CanBeLost(s, id)
  {
    assert !Recorded(Run(s, []), id);
  }

  /** A save of a launch that lands. */
  lemma FlushLoses(init: State, s: State, x: TaskId, id: TaskId)
    requires !s.shared && !s.main.Evaluating? && x in s.saves
    requires SavesHoldNoResult(init, s) && BlockPropagation.Waiting(init.snapshot, id) && NoResult(s.snapshot, id)
    ensures CanBeLost(s, id)
  {
    if s.saves[x].Queued? {
      var serialised := SerialiseStep(s, x);
      assert Next(s, Serialise(x)) == serialised;
      assert Next(serialised, Flush(x)).store.tasks == s.snapshot;
      LostNow(Next(serialised, Flush(x)), id);
      LostLater(serialised, Flush(x), id);
      LostLater(s, Serialise(x), id);
    } else {
      assert Next(s, Flush(x)).store == s.saves[x].copy;
      LostNow(Next(s, Flush(x)), id);
      LostLater(s, Flush(x), id);
    }
  }

  /** A copy that was read too early and is saved. */
  lemma CopyLoses(s: State, x: TaskId, id: TaskId)
    requires !s.shared && Busy(s, x) && s.inFlight[x].Saving? && id in s.results
    requires !SavedAs(s.inFlight[x].copy.tasks, id, Outcome(s.results[id]))
    ensures CanBeLost(s, id)
  {
    LostNow(Next(s, SaveResult(x)), id);
    LostLater(s, SaveResult(x), id);
  }

  lemma RecordLoses(s: State, id: TaskId)
    requires !s.shared && s.main.Recording? && id in s.results
    requires !SavedAs(s.main.copy.tasks, id, Outcome(s.results[id]))
    ensures CanBeLost(s, id)
  {
    LostNow(Next(s, Record), id);
    LostLater(s, Record, id);
  }

  /** What is under way in `s` loses the result, if the main loop waits. */
  lemma PendingLoses(init: State, s: State, id: TaskId)
    requires Inv(init, s) && SavesHoldNoResult(init, s) && !s.shared && id in s.results && !s.main.Evaluating?
    requires !Kept(s, id) || s.saves != map[]
    ensures CanBeLost(s, id)
  {
    assert BlockPropagation.Waiting(init.snapshot, id) by { assert HistoryOk(init, s); }
    SnapshotHoldsNoResult(init, s, id);
    hide Inv, Run;
    if !Recorded(s, id) {
      LostNow(s, id);
    } else if s.saves != map[] {
      var x :| x in s.saves;
      FlushLoses(init, s, x, id);
    } else if s.main.Recording? && !SavedAs(s.main.copy.tasks, id, Outcome(s.results[id])) {
      RecordLoses(s, id);
    } else {
      var x :| x in s.inFlight && s.inFlight[x].Saving?
               && !SavedAs(s.inFlight[x].copy.tasks, id, Outcome(s.results[id]));
      CopyLoses(s, x, id);
    }
  }

  /** Giving up takes the main loop out of its sweep and leaves everything else as it is. */
  lemma GiveUp(init: State, s: State)
    requires UniqueIds(init.graph) && Inv(init, s) && SavesHoldNoResult(init, s) && !s.shared && s.main.Evaluating?
    ensures
      var s' := Next(Next(s, Cancel), EndSweep);
      && Inv(init, s') && SavesHoldNoResult(init, s') && !s'.shared && !s'.main.Evaluating? && !s'.main.Recording?
      && s'.results == s.results && s'.saves == s.saves && s'.inFlight == s.inFlight && s'.store == s.store
  {
    hide Inv, SavesHoldNoResult, Next;
    NextKeepsInv(init, s, Cancel);
    NextKeepsNoResult(init, s, Cancel);
    CancelAndSweep(s);
    NextKeepsInv(init, Next(s, Cancel), EndSweep);
    NextKeepsNoResult(init, Next(s, Cancel), EndSweep);
  }

  lemma CancelAndSweep(s: State)
    requires s.main.Evaluating?
    ensures Next(s, Cancel).shared == s.shared
    ensures
      var s' := Next(Next(s, Cancel), EndSweep);
      && s'.shared == s.shared && !s'.main.Evaluating? && !s'.main.Recording?
      && s'.results == s.results && s'.saves == s.saves && s'.inFlight == s.inFlight && s'.store == s.store
  {
    hide Pick;
    var mid := s.(abort := true);
    assert Next(s, Cancel) == mid;
    assert Next(mid, EndSweep) == EndSweepStep(mid);
    hide Next;
    if s.inFlight == map[] {
    } else {
    }
  }

  /** While a ready task has not started the main loop is not over, and where it goes the result is unsafe. */
  lemma StaysUnsafe(init: State, s: State, step: Step, id: TaskId)
    requires UniqueIds(init.graph) && init.maxParallel >= 1 && Inv(init, s) && !s.shared && Inv(init, Next(s, step))
    requires !s.abort && !AllStarted(init, s) && step != Cancel && Next(s, step) != s
    ensures !Safe(init, Next(s, step), id)
  {
    hide Inv, AllStarted, Kept;
    if step.LaunchNext? {
      LaunchOrNothing(s);
      hide LaunchStep;
      LaunchSaves(s);
    } else {
      var s' := Next(s, step);
      NothingStartsOtherwise(s, step);
      hide Next;
      SameStarted(init, s, s');
      NotOver(init, s');
    }
  }

  lemma NothingStartsOtherwise(s: State, step: Step)
    requires !step.LaunchNext? && !step.Cancel?
    ensures Next(s, step).abort == s.abort && Next(s, step).started == s.started && Next(s, step).shared == s.shared
  {
    hide Verdict, Pick, WithResult;
    if !step.Finish? {
      StepKinds(s, step);
    }
  }

  lemma SameStarted(init: State, s: State, s': State)
    requires s'.started == s.started
    ensures AllStarted(init, s') == AllStarted(init, s)
  {
  }

  lemma LaunchSaves(s: State)
    requires Launches(s, LaunchStep(s))
    ensures LaunchStep(s).saves != map[]
  {
    hide LaunchStep, Launchable;
    var i :| 0 <= i < |s.graph| && Launchable(s, s.graph[i]) && LaunchStep(s) == Launch(s, s.graph[i]);
    assert s.graph[i].id in Launch(s, s.graph[i]).saves;
  }

  lemma NotOver(init: State, s: State)
    requires init.maxParallel >= 1 && Inv(init, s) && !s.shared && !s.abort && !AllStarted(init, s)
    ensures !PastLoop(s.main)
  {
    SameDone(init, s);
    var id :| BlockPropagation.Waiting(init.snapshot, id) && Ready(init.graph, init.snapshot, id) && id !in s.started;
    var i :| 0 <= i < |init.graph| && init.graph[i].id == id && DepsDone(init.snapshot, init.graph[i]);
    assert SnapshotEntry(init, s, id);
    assert DepsDone(s.snapshot, s.graph[i]);
    assert s.inFlight == map[] ==> Launchable(s, s.graph[i]);
  }

  lemma {:induction false} UnsafeCanBeLost(init: State, s: State, id: TaskId)
    requires UniqueIds(init.graph) && init.maxParallel >= 1
    requires Inv(init, s) && SavesHoldNoResult(init, s) && !s.shared && id in s.results && !Safe(init, s, id)
    ensures CanBeLost(s, id)
    decreases Measure(s)
  {
    hide Inv, SavesHoldNoResult, Measure, AllStarted, CanBeLost, Next, Run;
    if !Kept(s, id) || s.saves != map[] {
      if s.main.Evaluating? {
        GiveUp(init, s);
        var waiting := Next(Next(s, Cancel), EndSweep);
        hide SavedAs;
        PendingLoses(init, waiting, id);
        LostLater(Next(s, Cancel), EndSweep, id);
        LostLater(s, Cancel, id);
      } else {
        PendingLoses(init, s, id);
      }
    } else {
      assert MainOk(s) by { UnfoldMain(init, s); }
      hide Kept, MainOk;
      NotStuck(s);
      var step: Step :| step != Cancel && Next(s, step) != s;
      NextKeepsInv(init, s, step);
      NextKeepsNoResult(init, s, step);
      StaysUnsafe(init, s, step, id);
      EveryStepDrops(init, s, step);
      ResultsStay(init, s, step, id);
      UnsafeCanBeLost(init, Next(s, step), id);
      LostLater(s, step, id);
    }
  }

  lemma UnfoldMain(init: State, s: State)
    requires Inv(init, s)
    ensures MainOk(s)
  {
  }

  lemma ResultsStay(init: State, s: State, step: Step, id: TaskId)
    requires Inv(init, s) && id in s.results
    ensures id in Next(s, step).results && Next(s, step).results[id] == s.results[id]
    ensures Next(s, step).shared == s.shared
  {
    assert HistoryOk(init, s) && Bounded(s);
    hide Inv, Next;
    NextGrowsHistory(init, s, step);
    NextKeepsBounded(s, step);
  }

  /** However the run goes on, the store holds the result. */
  ghost predicate StaysRecorded(s: State, id: TaskId)
  {
    forall more :: Recorded(Run(s, more), id)
  }

  /** In every reachable state: a result stays in the store however the run goes on if and only if the store
      and all copies about to be saved hold it, no save of a launch is under way, and none will be. */
  lemma ResultStaysIff(init: State, steps: seq<Step>, id: TaskId)
    requires Init(init) && !init.shared && id in Run(init, steps).results
    ensures StaysRecorded(Run(init, steps), id) <==> Safe(init, Run(init, steps), id)
  {
    var s := Run(init, steps);
    RunKeepsInv(init, steps);
    RunKeepsNoResult(init, steps);
    assert s.shared == init.shared by { SharedStays(init, s); }
    hide Run, Inv, SavesHoldNoResult, Safe, StaysRecorded;
    if Safe(init, s, id) {
      SafeStaysRecorded(init, s, id);
    } else {
      UnsafeCanBeLost(init, s, id);
      LostDoesNotStay(s, id);
    }
  }

  lemma SharedStays(init: State, s: State)
    requires Inv(init, s)
    ensures s.shared == init.shared
  {
  }

  lemma LostDoesNotStay(s: State, id: TaskId)
    requires CanBeLost(s, id)
    ensures !StaysRecorded(s, id)
  {
    hide Recorded;
  }

  lemma SafeStaysRecorded(init: State, s: State, id: TaskId)
    requires UniqueIds(init.graph) && Inv(init, s) && Safe(init, s, id)
    ensures StaysRecorded(s, id)
  {
    forall more
      ensures Recorded(Run(s, more), id)
    {
      SafeStays(init, s, more, id);
      SafeIsRecorded(init, Run(s, more), id);
    }
  }

  lemma SafeIsRecorded(init: State, s: State, id: TaskId)
    requires Safe(init, s, id)
    ensures Recorded(s, id)
  {
  }

  // ---- what is known before the call ------------------------------------------------------------

  /** Over all runs: what the store once recorded it goes on recording. */
  ghost predicate NoResultIsLost(init: State)
  {
    forall steps, id :: Recorded(Run(init, steps), id) ==> StaysRecorded(Run(init, steps), id)
  }

  ghost predicate SomethingReady(init: State)
  {
    exists id :: BlockPropagation.Waiting(init.snapshot, id) && Ready(init.graph, init.snapshot, id)
  }

  lemma {:induction false} HistoryGrowsAlong(init: State, s: State, more: seq<Step>)
    requires UniqueIds(init.graph) && Inv(init, s)
    ensures Inv(init, Run(s, more)) && HistoryGrows(s, Run(s, more))
    decreases |more|
  {
    if more != [] {
      var last := Run(s, more[..|more| - 1]);
      HistoryGrowsAlong(init, s, more[..|more| - 1]);
      assert HistoryOk(init, last);
      hide Inv, Next, HistoryOk, HistoryGrows;
      NextKeepsInv(init, last, more[|more| - 1]);
      NextGrowsHistory(init, last, more[|more| - 1]);
      GrowsFurther(s, last, Run(s, more));
    } else {
      hide Inv;
    }
  }

  lemma GrowsFurther(s: State, s': State, s'': State)
    requires HistoryGrows(s, s') && HistoryGrows(s', s'')
    ensures HistoryGrows(s, s'')
  {
  }

  /** With a shared object the store always holds every result. */
  lemma SharedRecords(init: State, s: State, id: TaskId)
    requires Inv(init, s) && s.shared && id in s.results
    ensures Recorded(s, id)
  {
    assert SnapshotEntry(init, s, id);
  }

  lemma SharedNeverLoses(init: State, steps: seq<Step>, id: TaskId)
    requires Init(init) && init.shared && Recorded(Run(init, steps), id)
    ensures StaysRecorded(Run(init, steps), id)
  {
    RunKeepsInv(init, steps);
    var s := Run(init, steps);
    forall more
      ensures Recorded(Run(s, more), id)
    {
      HistoryGrowsAlong(init, s, more);
      SharedStays(init, Run(s, more));
      SharedRecords(init, Run(s, more), id);
    }
  }

  lemma {:induction false} AbortedStartsNothing(init: State, steps: seq<Step>)
    requires Init(init) && init.abort
    ensures Run(init, steps).abort && Run(init, steps).started == []
    decreases |steps|
  {
    if steps != [] {
      AbortedStartsNothing(init, steps[..|steps| - 1]);
      hide Next;
      AbortedLaunchesNothing(Run(init, steps[..|steps| - 1]), steps[|steps| - 1]);
    }
  }

  lemma AbortedLaunchesNothing(s: State, step: Step)
    requires s.abort
    ensures Next(s, step).abort && Next(s, step).started == s.started
  {
    hide Verdict, Pick, WithResult;
    if step.Finish? {
      NextIsFinish(s, step.id, step.ok);
      hide Next;
      if AtWork(s, step.id) {
      } else {
      }
    } else if !step.LaunchNext? {
      StepKinds(s, step);
    }
  }

  lemma NothingStarts(init: State, steps: seq<Step>)
    requires Init(init) && !init.shared && (init.abort || !SomethingReady(init))
    ensures Run(init, steps).results == map[] && Run(init, steps).started == []
  {
    RunKeepsInv(init, steps);
    var s := Run(init, steps);
    if init.abort {
      AbortedStartsNothing(init, steps);
    } else {
      OnlyFirstReadyStart(init, steps);
      hide Run, Inv, Ready;
      SomeElement(s.started);
    }
    NothingStartedNoResults(init, s);
  }

  lemma SomeElement(ids: seq<TaskId>)
    ensures ids == [] || exists id :: id in ids
  {
    assert ids != [] ==> ids[0] in ids;
  }

  lemma NothingStartedNoResults(init: State, s: State)
    requires Inv(init, s) && s.started == []
    ensures s.results == map[]
  {
    assert HistoryOk(init, s);
    hide Inv;
    assert forall id :: id in s.results ==> id in s.started;
  }

  /** A ready task is launched, the run cancelled, and the main loop waits for it. */
  lemma CancelledAtOnce(init: State) returns (s: State, id: TaskId)
    requires Init(init) && !init.shared && !init.abort && SomethingReady(init)
    ensures s == Run(init, [LaunchNext, Cancel, EndSweep])
    ensures !s.shared && s.abort && s.main == RunScheduler.Waiting({id})
    ensures s.inFlight == map[id := Working] && s.saves == map[id := Queued]
  {
    var r := Pick(init, 0);
    ReadyIsPicked(init);
    id := init.graph[r.value].id;
    ThreeSteps(init, LaunchNext, Cancel, EndSweep);
    hide Run;
    var s1 := Launch(init, init.graph[r.value]);
    assert Next(init, LaunchNext) == s1;
    var s2 := s1.(abort := true);
    assert Next(s1, Cancel) == s2;
    hide Pick;
    assert s2.inFlight.Keys == {id} && s2.inFlight == map[id := Working] && s2.saves == map[id := Queued];
    s := s2.(main := RunScheduler.Waiting({id}));
    assert Next(s2, EndSweep) == s;
  }

  /** It succeeds and is recorded; its launch is not saved yet. */
  lemma RecordedTooEarly(init: State) returns (steps: seq<Step>, id: TaskId)
    requires Init(init) && !init.shared && !init.abort && SomethingReady(init)
    ensures Recorded(Run(init, steps), id) && Run(init, steps).saves != map[]
  {
    var s: State;
    s, id := CancelledAtOnce(init);
    var more := [Finish(id, true), SaveResult(id)];
    steps := [LaunchNext, Cancel, EndSweep] + more;
    RunSplits(init, [LaunchNext, Cancel, EndSweep], more);
    TwoSteps(s, Finish(id, true), SaveResult(id));
    hide Run, Next;
    assert id in s.saves;
    Answered(s, id);
  }

  lemma Answered(s: State, id: TaskId)
    requires !s.shared && AtWork(s, id) && id in s.saves
    ensures
      var end := Next(Next(s, Finish(id, true)), SaveResult(id));
      Recorded(end, id) && end.saves == s.saves
  {
    var s' := FinishStep(s, id, true);
    assert s'.inFlight[id] == Saving(RunRecord(s.store.status, s.store.tasks[id := Completed]));
  }

  lemma ReadyIsPicked(init: State)
    requires Init(init) && SomethingReady(init)
    ensures Pick(init, 0).Some?
  {
    var id :| BlockPropagation.Waiting(init.snapshot, id) && Ready(init.graph, init.snapshot, id);
    var i :| 0 <= i < |init.graph| && init.graph[i].id == id && DepsDone(init.snapshot, init.graph[i]);
    assert Launchable(init, init.graph[i]);
  }

  lemma ThreeSteps(s: State, a: Step, b: Step, c: Step)
    ensures Run(s, [a, b, c]) == Next(Next(Next(s, a), b), c)
  {
    assert [a, b, c][..2] == [a, b];
    TwoSteps(s, a, b);
    hide Next;
  }

  /** Whether `execute` can lose a result is decided before it begins: it never does if the store hands out one
      object, if it was cancelled before, or if nothing is ready; otherwise some run does. */
  lemma NoResultIsLostIff(init: State)
    requires Init(init)
    ensures NoResultIsLost(init) <==> init.shared || init.abort || !SomethingReady(init)
  {
    hide Run, Recorded, SomethingReady, StaysRecorded;
    if init.shared {
      forall steps, id | Recorded(Run(init, steps), id)
        ensures StaysRecorded(Run(init, steps), id)
      {
        SharedNeverLoses(init, steps, id);
      }
    } else if init.abort || !SomethingReady(init) {
      forall steps, id
        ensures !Recorded(Run(init, steps), id)
      {
        NothingStarts(init, steps);
        RecordedHasResult(Run(init, steps), id);
      }
    } else {
      var steps, id := RecordedTooEarly(init);
      RecordedHasResult(Run(init, steps), id);
      ResultStaysIff(init, steps, id);
    }
  }

  lemma RecordedHasResult(s: State, id: TaskId)
    ensures Recorded(s, id) ==> id in s.results
  {
  }

  // ---- the outcome, before the call -------------------------------------------------------------

  /** Over all runs: once `execute` has recorded how it ended, the store goes on saying so. */
  ghost predicate NoOutcomeIsLost(init: State)
  {
    forall steps :: Run(init, steps).main.Finished? ==> OutcomeIsKept(Run(init, steps))
  }

  predicate SaysHowItEnded(s: State)
  {
    s.main.Finished? ==> s.store.status == s.main.outcome
  }

  lemma SharedNextSays(s: State, step: Step)
    requires s.shared && SaysHowItEnded(s)
    ensures Next(s, step).shared && SaysHowItEnded(Next(s, step))
    ensures s.main.Finished? ==> Next(s, step).main == s.main
  {
    hide Verdict, Pick, WithResult;
  }

  lemma {:induction false} SharedRunSays(s: State, more: seq<Step>)
    requires s.shared && SaysHowItEnded(s)
    ensures Run(s, more).shared && SaysHowItEnded(Run(s, more))
    ensures s.main.Finished? ==> Run(s, more).main == s.main
    decreases |more|
  {
    if more != [] {
      SharedRunSays(s, more[..|more| - 1]);
      hide Next, SaysHowItEnded;
      SharedNextSays(Run(s, more[..|more| - 1]), more[|more| - 1]);
    }
  }

  lemma SharedKeepsOutcome(init: State, steps: seq<Step>)
    requires Init(init) && init.shared && Run(init, steps).main.Finished?
    ensures OutcomeIsKept(Run(init, steps))
  {
    SharedRunSays(init, steps);
    var s := Run(init, steps);
    hide Run;
    forall more
      ensures Run(s, more).store.status == s.main.outcome
    {
      SharedRunSays(s, more);
    }
  }

  /** Nothing is in flight, in a task or in a save. */
  predicate Quiet(s: State)
  {
    s.inFlight == map[] && s.saves == map[] && SaysHowItEnded(s)
  }

  lemma QuietStaysQuiet(s: State, step: Step)
    requires Quiet(s) && Next(s, step).started == s.started
    ensures Quiet(Next(s, step))
  {
    hide Verdict, Pick, WithResult;
    if step.LaunchNext? {
      LaunchOrNothing(s);
      hide LaunchStep;
    }
  }

  lemma {:induction false} IdleRunIsQuiet(init: State, steps: seq<Step>)
    requires Init(init) && !init.shared && (init.abort || !SomethingReady(init))
    ensures Quiet(Run(init, steps)) && Run(init, steps).started == []
    decreases |steps|
  {
    NothingStarts(init, steps);
    if steps != [] {
      IdleRunIsQuiet(init, steps[..|steps| - 1]);
      hide Next, Quiet;
      QuietStaysQuiet(Run(init, steps[..|steps| - 1]), steps[|steps| - 1]);
    }
  }

  /** The run ends while the save of its launch still waits. */
  lemma EndsTooEarly(init: State) returns (steps: seq<Step>, id: TaskId)
    requires Init(init) && !init.shared && !init.abort && SomethingReady(init)
    ensures Run(init, steps).main.Finished? && id in Run(init, steps).saves
  {
    var s: State;
    s, id := CancelledAtOnce(init);
    var leave, close := [Finish(id, true), SaveResult(id), Leave(id)], [Judge, Reread, Record];
    ThreeSteps(s, Finish(id, true), SaveResult(id), Leave(id));
    var left := LastLeaves(s, id);
    var woken := left.(main := Draining);
    OneStep(left, Wake);
    assert Next(left, Wake) == woken;
    ThreeSteps(woken, Judge, Reread, Record);
    LoopEnds(woken);
    steps := [LaunchNext, Cancel, EndSweep] + (leave + ([Wake] + close));
    RunSplits(left, [Wake], close);
    RunSplits(s, leave, [Wake] + close);
    RunSplits(init, [LaunchNext, Cancel, EndSweep], leave + ([Wake] + close));
    hide Run, Next;
  }

  lemma LastLeaves(s: State, id: TaskId) returns (left: State)
    requires !s.shared && s.abort && s.main == RunScheduler.Waiting({id}) && s.inFlight == map[id := Working]
    ensures left == Next(Next(Next(s, Finish(id, true)), SaveResult(id)), Leave(id))
    ensures left.main == s.main && left.inFlight == map[] && left.saves == s.saves && left.abort
  {
    hide WithResult;
    var finished := FinishStep(s, id, true);
    assert finished.inFlight.Keys == {id} && finished.inFlight[id].Saving?;
    var saved := SaveResultStep(finished, id);
    assert saved.inFlight.Keys == {id} && saved.inFlight[id] == Closing;
    left := LeaveStep(saved, id);
    assert left.inFlight == map[];
  }

  lemma LoopEnds(s: State)
    requires s.main.Draining? && s.inFlight == map[]
    ensures
      var end := Next(Next(Next(s, Judge), Reread), Record);
      end.main.Finished? && end.saves == s.saves
  {
    hide Verdict;
  }

  /** As with the results: the outcome of `execute` stays in every run exactly if the store hands out one object,
      the run was cancelled before, or nothing is ready. */
  lemma NoOutcomeIsLostIff(init: State)
    requires Init(init)
    ensures NoOutcomeIsLost(init) <==> init.shared || init.abort || !SomethingReady(init)
  {
    hide Run, SomethingReady, OutcomeIsKept;
    if init.shared || init.abort || !SomethingReady(init) {
      forall steps | Run(init, steps).main.Finished?
        ensures OutcomeIsKept(Run(init, steps))
      {
        if init.shared {
          SharedKeepsOutcome(init, steps);
        } else {
          IdleRunIsQuiet(init, steps);
          OutcomeStaysIff(init, steps);
        }
      }
    } else {
      var steps, id := EndsTooEarly(init);
      OutcomeStaysIff(init, steps);
    }
  }
}
