/** What a store that re-reads its file loses: a launch saves the snapshot, in which every task started so
    far still runs, over the results recorded in the meantime. */
module SchedulerForgets {
  import opened Options
  import opened BlockPropagation
  import opened RunScheduler
  import opened SchedulerRuns

  predicate RunningIn(tasks: Statuses, id: TaskId)
  {
    id in tasks && tasks[id].Running?
  }

  /** The task has left, and the store and everything still to be written say it is running. */
  predicate Forgotten(s: State, id: TaskId)
  {
    && !s.shared
    && id in s.started && id !in s.inFlight
    && RunningIn(s.snapshot, id) && RunningIn(s.store.tasks, id)
    && (forall x :: x in s.inFlight && s.inFlight[x].Saving? ==> RunningIn(s.inFlight[x].copy.tasks, id))
    && (forall x :: x in s.saves && s.saves[x].Writing? ==> RunningIn(s.saves[x].copy.tasks, id))
    && (s.main.Recording? ==> RunningIn(s.main.copy.tasks, id))
  }

  predicate PausedIfJudged(s: State)
  {
    s.main.Judged? || s.main.Recording? || s.main.Finished? ==> s.main.outcome == RunPaused
  }

  lemma ResultKeepsRunning(graph: seq<Task>, tasks: Statuses, x: TaskId, ok: bool, id: TaskId)
    requires RunningIn(tasks, id) && x != id
    ensures RunningIn(WithResult(graph, tasks, x, ok), id)
  {
    if !ok {
      LiveTasksAreBlocked(graph, x, tasks[x := Failed]);
    }
  }

  lemma OtherIsLaunched(init: State, s: State, id: TaskId)
    requires Inv(init, s) && id in s.started && Launches(s, LaunchStep(s))
    ensures exists task :: LaunchStep(s) == Launch(s, task) && task.id != id
  {
    assert SnapshotOk(init, s);
    hide LaunchStep, Inv;
    var i :| 0 <= i < |s.graph| && Launchable(s, s.graph[i]) && LaunchStep(s) == Launch(s, s.graph[i]);
    LaunchedWasWaiting(init, s, s.graph[i]);
  }

  lemma LaunchingKeepsForgotten(init: State, s: State, id: TaskId)
    requires Inv(init, s) && Forgotten(s, id)
    ensures Forgotten(LaunchStep(s), id)
  {
    LaunchOrNothing(s);
    if Launches(s, LaunchStep(s)) {
      OtherIsLaunched(init, s, id);
      hide Inv, LaunchStep, Launches;
      var task :| LaunchStep(s) == Launch(s, task) && task.id != id;
      hide Forgotten, Launch;
      LaunchKeepsForgotten(s, task, id);
    } else {
      hide LaunchStep, Launches;
    }
  }

  lemma NextKeepsForgotten(init: State, s: State, step: Step, id: TaskId)
    requires Inv(init, s) && Forgotten(s, id)
    ensures Forgotten(Next(s, step), id)
  {
    hide Inv, Forgotten, Next, LaunchStep, FinishStep;
    if step.LaunchNext? {
      NextIsLaunch(s);
      LaunchingKeepsForgotten(init, s, id);
    } else if step.Finish? {
      NextIsFinish(s, step.id, step.ok);
      FinishKeepsForgotten(s, step.id, step.ok, id);
    } else {
      OthersKeepForgotten(s, step, id);
    }
  }

  lemma LaunchKeepsForgotten(s: State, task: Task, id: TaskId)
    requires Forgotten(s, id) && task.id != id
    ensures Forgotten(Launch(s, task), id)
  {
  }

  lemma FinishKeepsForgotten(s: State, x: TaskId, ok: bool, id: TaskId)
    requires Forgotten(s, id)
    ensures Forgotten(FinishStep(s, x, ok), id)
  {
    if AtWork(s, x) {
      ResultKeepsRunning(s.graph, s.store.tasks, x, ok, id);
      hide WithResult, RunningIn;
    }
  }

  lemma OthersKeepForgotten(s: State, step: Step, id: TaskId)
    requires Forgotten(s, id) && !step.LaunchNext? && !step.Finish?
    ensures Forgotten(Next(s, step), id)
  {
    hide Verdict, Pick, RunningIn;
  }

  lemma NextKeepsPaused(init: State, s: State, step: Step, id: TaskId)
    requires Inv(init, s) && Forgotten(s, id) && PausedIfJudged(s)
    ensures PausedIfJudged(Next(s, step))
  {
    MainKeepsOutcome(s, step);
    if step.Judge? && Next(s, step) != s {
      assert id in GraphIds(s.graph);
      var i :| 0 <= i < |s.graph| && s.graph[i].id == id;
      assert !Settled(s.store.tasks, s.graph[i].id);
    }
    hide Next;
  }

  lemma {:induction false} RunSplits(s: State, steps: seq<Step>, more: seq<Step>)
    ensures Run(s, steps + more) == Run(Run(s, steps), more)
    decreases |more|
  {
    if more == [] {
      assert steps + more == steps;
    } else {
      RunSplits(s, steps, more[..|more| - 1]);
      assert (steps + more)[..|steps + more| - 1] == steps + more[..|more| - 1];
    }
  }

  lemma LastStep(init: State, steps: seq<Step>, more: seq<Step>)
    requires more != []
    ensures
      var n := |more| - 1;
      Run(init, steps + more) == Next(Run(init, steps + more[..n]), more[n])
  {
    assert (steps + more)[..|steps + more| - 1] == steps + more[..|more| - 1];
    hide Next;
  }

  /** Once forgotten, a task stays forgotten, and however the run goes on it can only end paused. */
  lemma {:induction false} ForgottenRunEndsPaused(init: State, steps: seq<Step>, more: seq<Step>, id: TaskId)
    requires Init(init) && Forgotten(Run(init, steps), id) && PausedIfJudged(Run(init, steps))
    ensures Forgotten(Run(init, steps + more), id) && PausedIfJudged(Run(init, steps + more))
    decreases |more|
  {
    hide Forgotten, PausedIfJudged, Inv, Next, Run;
    if more == [] {
      assert steps + more == steps;
    } else {
      var earlier := steps + more[..|more| - 1];
      ForgottenRunEndsPaused(init, steps, more[..|more| - 1], id);
      RunKeepsInv(init, earlier);
      LastStep(init, steps, more);
      NextKeepsForgotten(init, Run(init, earlier), more[|more| - 1], id);
      NextKeepsPaused(init, Run(init, earlier), more[|more| - 1], id);
    }
  }

  /** This is what the save of a later launch does: with no other write under way, every task that has
      left by then, whatever its result, is forgotten. */
  lemma LaterSaveForgets(init: State, steps: seq<Step>, later: TaskId, id: TaskId)
    requires Init(init) && !init.shared
    requires
      var s := Run(init, steps);
      && s.main.Waiting? && id in s.results && id !in s.inFlight
      && later in s.saves && s.saves[later] == Queued
      && (forall x :: x in s.saves ==> !s.saves[x].Writing?)
      && (forall x :: x in s.inFlight ==> !s.inFlight[x].Saving?)
    ensures Forgotten(Run(init, steps + [Serialise(later), Flush(later)]), id)
  {
    var s := Run(init, steps);
    RunKeepsInv(init, steps);
    RunSplits(init, steps, [Serialise(later), Flush(later)]);
    assert !s.shared && id in s.started && RunningIn(s.snapshot, id) by {
      assert SnapshotEntry(init, s, id);
    }
    hide Run, Inv, Forgotten, Next, RunningIn;
    TwoSteps(s, Serialise(later), Flush(later));
    SaveForgets(s, later, id);
  }

  lemma SaveForgets(s: State, later: TaskId, id: TaskId)
    requires !s.shared && s.main.Waiting? && id in s.started && id !in s.inFlight && RunningIn(s.snapshot, id)
    requires later in s.saves && s.saves[later] == Queued
    requires forall x :: x in s.saves ==> !s.saves[x].Writing?
    requires forall x :: x in s.inFlight ==> !s.inFlight[x].Saving?
    ensures Forgotten(Next(Next(s, Serialise(later)), Flush(later)), id)
  {
    var serialised := SerialiseStep(s, later);
    assert Next(s, Serialise(later)) == serialised && Next(serialised, Flush(later)) == FlushStep(serialised, later);
    hide Next, RunningIn;
    assert serialised.saves[later] == Writing(RunRecord(RunRunning, s.snapshot));
  }

  /** Two independent tasks that may not run in parallel: "a" succeeds, then "b" is launched. */
  function InTurn(): State
  {
    State([Task("a", false, []), Task("b", false, [])], 3, false,
          map["a" := Pending, "b" := Pending], RunRecord(RunRunning, map["a" := Pending, "b" := Pending]),
          map[], map[], false, Evaluating, [], map[])
  }

  function FirstHalf(): seq<Step>
  {
    [LaunchNext, EndSweep, Serialise("a"), Flush("a"), Finish("a", true), SaveResult("a"), Leave("a")]
  }

  function SecondHalf(): seq<Step>
  {
    [Wake, LaunchNext, EndSweep]
  }

  /** In such a run, ordinary in every respect, the success of "a" is lost: the run can only end paused. */
  lemma SuccessIsForgotten()
    ensures
      var s := Run(InTurn(), FirstHalf() + SecondHalf() + [Serialise("b"), Flush("b")]);
      && Init(InTurn())
      && s.results == map["a" := true] && s.inFlight.Keys == {"b"} && !s.abort
      && Forgotten(s, "a") && PausedIfJudged(s)
  {
    var s0, steps := InTurn(), FirstHalf() + SecondHalf();
    AfterFirstHalf();
    RunSplits(s0, FirstHalf(), SecondHalf());
    AfterSecondHalf();
    LaterSaveForgets(s0, steps, "b", "a");
    RunSplits(s0, steps, [Serialise("b"), Flush("b")]);
    TwoSteps(Run(s0, steps), Serialise("b"), Flush("b"));
    SaveKeepsHistory(Run(s0, steps), "b");
    hide Run, Forgotten, Next;
  }

  lemma SaveKeepsHistory(s: State, id: TaskId)
    requires s.main.Waiting?
    ensures
      var end := Next(Next(s, Serialise(id)), Flush(id));
      end.results == s.results && end.inFlight == s.inFlight && end.abort == s.abort && end.main == s.main
  {
    SavesKeepHistory(s, Serialise(id));
    SavesKeepHistory(Next(s, Serialise(id)), Flush(id));
    hide Next;
  }

  lemma SavesKeepHistory(s: State, step: Step)
    requires step.Serialise? || step.Flush?
    ensures
      var end := Next(s, step);
      end.results == s.results && end.inFlight == s.inFlight && end.abort == s.abort && end.main == s.main
  {
  }

  function Midway(): State
  {
    var tasks := map["a" := Running, "b" := Pending];
    InTurn().(snapshot := tasks, store := RunRecord(RunRunning, tasks["a" := Completed]),
              main := Waiting({"a"}), started := ["a"], results := map["a" := true])
  }

  /** "a" in flight, its launch saved. */
  function Launched(): State
  {
    var tasks := map["a" := Running, "b" := Pending];
    InTurn().(snapshot := tasks, store := RunRecord(RunRunning, tasks), inFlight := map["a" := Working],
              main := Waiting({"a"}), started := ["a"])
  }

  lemma AfterFirstHalf()
    ensures Run(InTurn(), FirstHalf()) == Midway()
  {
    var s := InTurn();
    LaunchOfA();
    ResultOfA();
    hide Next, InTurn, Launched, Midway;
    Steps7(s, FirstHalf());
  }

  lemma LaunchOfA()
    ensures Next(Next(Next(Next(InTurn(), LaunchNext), EndSweep), Serialise("a")), Flush("a")) == Launched()
  {
    SweepOfA();
    var s2 := Unsaved();
    var s3 := s2.(saves := map["a" := Writing(RunRecord(RunRunning, s2.snapshot))]);
    assert Next(s2, Serialise("a")) == s3;
    assert Next(s3, Flush("a")) == Launched();
    hide Next;
  }

  function Unsaved(): State
  {
    Launched().(store := InTurn().store, saves := map["a" := Queued])
  }

  lemma SweepOfA()
    ensures Next(Next(InTurn(), LaunchNext), EndSweep) == Unsaved()
  {
    var s := InTurn();
    assert Pick(s, 0) == Some(0);
    var s1 := Unsaved().(main := Evaluating);
    assert Next(s, LaunchNext) == s1;
    assert Pick(s1, 2) == None && Pick(s1, 1) == None && Pick(s1, 0) == None;
    assert s1.inFlight.Keys == {"a"};
    assert Next(s1, EndSweep) == Unsaved();
  }

  lemma ResultOfA()
    ensures Next(Next(Next(Launched(), Finish("a", true)), SaveResult("a")), Leave("a")) == Midway()
  {
    var s4 := Launched();
    var done := RunRecord(RunRunning, map["a" := Completed, "b" := Pending]);
    var s5 := s4.(inFlight := map["a" := Saving(done)], results := map["a" := true]);
    assert s4.store.tasks["a" := Completed] == done.tasks;
    assert Next(s4, Finish("a", true)) == s5;
    var s6 := s5.(inFlight := map["a" := Closing], store := done);
    assert Next(s5, SaveResult("a")) == s6;
    assert Next(s6, Leave("a")) == Midway();
  }

  lemma Steps7(s: State, steps: seq<Step>)
    requires |steps| == 7
    ensures Run(s, steps) ==
            Next(Next(Next(Next(Next(Next(Next(s, steps[0]), steps[1]), steps[2]), steps[3]), steps[4]), steps[5]),
                 steps[6])
  {
    hide Next;
    forall n | 0 <= n < 7
      ensures Run(s, steps[..n + 1]) == Next(Run(s, steps[..n]), steps[n])
    {
      assert steps[..n + 1][..n] == steps[..n];
    }
    assert steps[..7] == steps;
  }

  lemma AfterSecondHalf()
    ensures
      var s := Run(Midway(), SecondHalf());
      && s.results == map["a" := true] && s.inFlight == map["b" := Working] && !s.abort
      && s.main == Waiting({"b"}) && s.saves == map["b" := Queued] && !s.shared
  {
    var s := Midway();
    var s1 := s.(main := Evaluating);
    assert Next(s, Wake) == s1;
    assert Pick(s1, 1) == Some(1) && Pick(s1, 0) == Some(1);
    var s2 := s1.(snapshot := map["a" := Running, "b" := Running], inFlight := map["b" := Working],
                  saves := map["b" := Queued], started := ["a", "b"]);
    assert Next(s1, LaunchNext) == s2;
    assert Pick(s2, 2) == None && Pick(s2, 1) == None && Pick(s2, 0) == None;
    assert s2.inFlight.Keys == {"b"};
    assert Next(s2, EndSweep) == s2.(main := Waiting({"b"}));
    hide Next;
    var steps := SecondHalf();
    forall n | 0 <= n < 3
      ensures Run(s, steps[..n + 1]) == Next(Run(s, steps[..n]), steps[n])
    {
      assert steps[..n + 1][..n] == steps[..n];
    }
    assert steps[..3] == steps;
  }

  lemma TwoSteps(s: State, a: Step, b: Step)
    ensures Run(s, [a, b]) == Next(Next(s, a), b)
  {
    assert [a, b][..1] == [a] && [a][..0] == [];
    assert Run(s, []) == s;
    assert Run(s, [a]) == Next(s, a);
  }

  // ---- after the end --------------------------------------------------------------------------

  /** After `execute` has recorded its outcome, the outcome stays in the store for good if no save of a
      launch is still under way ... */
  lemma OutcomeSticks(init: State, steps: seq<Step>, more: seq<Step>)
    requires Init(init) && Run(init, steps).main.Finished? && Run(init, steps).saves == map[]
    ensures Run(init, steps + more).main == Run(init, steps).main
    ensures Run(init, steps + more).store == Run(init, steps).store
  {
    RunKeepsInv(init, steps);
    RunSplits(init, steps, more);
    assert Run(init, steps).inFlight == map[] by { assert MainOk(Run(init, steps)); }
    hide Run, Inv;
    FinishedStays(Run(init, steps), more);
  }

  lemma {:induction false} FinishedStays(s: State, more: seq<Step>)
    requires s.main.Finished? && s.inFlight == map[] && s.saves == map[]
    ensures
      var end := Run(s, more);
      end.main == s.main && end.store == s.store && end.saves == map[] && end.inFlight == map[]
    decreases |more|
  {
    if more != [] {
      FinishedStays(s, more[..|more| - 1]);
      hide Next;
      FinishedIsFinal(Run(s, more[..|more| - 1]), more[|more| - 1]);
    }
  }

  lemma FinishedIsFinal(s: State, step: Step)
    requires s.main.Finished? && s.inFlight == map[] && s.saves == map[]
    ensures
      var s' := Next(s, step);
      s'.main == s.main && s'.store == s.store && s'.saves == map[] && s'.inFlight == map[]
  {
    hide Verdict, Pick, WithResult;
  }

  /** ... otherwise that save puts "running" back. */
  lemma PendingSaveUnsticks(init: State, steps: seq<Step>, id: TaskId)
    requires Init(init) && !init.shared && Run(init, steps).main.Finished? && id in Run(init, steps).saves
    ensures exists more :: Run(init, steps + more).store.status == RunRunning && Run(init, steps + more).main.Finished?
  {
    var s := Run(init, steps);
    SavesRun(init, steps);
    hide Run;
    var more := if s.saves[id].Queued? then [Serialise(id), Flush(id)] else [Flush(id)];
    RunSplits(init, steps, more);
    TwoSteps(s, Serialise(id), Flush(id));
    OneStep(s, Flush(id));
    SaveUnsticks(s, id);
    hide Next;
    assert Run(init, steps + more).store.status == RunRunning;
  }

  lemma SaveUnsticks(s: State, id: TaskId)
    requires !s.shared && s.main.Finished? && id in s.saves && SavesSayRunning(s)
    ensures
      var end := if s.saves[id].Queued? then Next(Next(s, Serialise(id)), Flush(id)) else Next(s, Flush(id));
      end.store.status == RunRunning && end.main.Finished?
  {
    var serialised := SerialiseStep(s, id);
    assert Next(s, Serialise(id)) == serialised && Next(serialised, Flush(id)) == FlushStep(serialised, id);
    assert Next(s, Flush(id)) == FlushStep(s, id);
    hide Next;
  }

  lemma OneStep(s: State, a: Step)
    ensures Run(s, [a]) == Next(s, a)
  {
    assert [a][..0] == [];
    assert Run(s, []) == s;
  }

  predicate SavesSayRunning(s: State)
  {
    forall x :: x in s.saves && s.saves[x].Writing? ==> s.saves[x].copy.status == RunRunning
  }

  lemma {:induction false} SavesRun(init: State, steps: seq<Step>)
    requires Init(init)
    ensures SavesSayRunning(Run(init, steps))
    ensures Run(init, steps).shared == init.shared
    decreases |steps|
  {
    if steps != [] {
      SavesRun(init, steps[..|steps| - 1]);
      hide SavesSayRunning, Next;
      NextKeepsSavesRunning(Run(init, steps[..|steps| - 1]), steps[|steps| - 1]);
    }
  }

  lemma NextKeepsSavesRunning(s: State, step: Step)
    requires SavesSayRunning(s)
    ensures SavesSayRunning(Next(s, step)) && Next(s, step).shared == s.shared
  {
    if step.LaunchNext? || step.Serialise? || step.Flush? {
      hide Pick;
    } else if step.Finish? || step.SaveResult? || step.Leave? {
      hide WithResult;
    } else {
      MainStepsKeepSaves(s, step);
      MainStepsKeepTasks(s, step);
      hide Next;
    }
  }

  /** However it goes on, the store says how the run ended. */
  ghost predicate OutcomeIsKept(s: State)
    requires s.main.Finished?
  {
    forall more :: Run(s, more).store.status == s.main.outcome
  }

  predicate NotReportedRunning(main: Main)
  {
    main.Judged? || main.Recording? || main.Finished? ==> main.outcome != RunRunning
  }

  lemma NextReportsAnEnd(s: State, step: Step)
    requires NotReportedRunning(s.main)
    ensures NotReportedRunning(Next(s, step).main)
  {
    MainKeepsOutcome(s, step);
    if !step.Judge? {
      hide Next;
    }
  }

  lemma {:induction false} RunReportsAnEnd(init: State, steps: seq<Step>)
    requires Init(init)
    ensures NotReportedRunning(Run(init, steps).main)
    decreases |steps|
  {
    if steps != [] {
      RunReportsAnEnd(init, steps[..|steps| - 1]);
      hide Next, NotReportedRunning;
      NextReportsAnEnd(Run(init, steps[..|steps| - 1]), steps[|steps| - 1]);
    }
  }

  lemma PendingSaveShows(s: State, id: TaskId)
    requires s.main.Finished? && !s.shared && id in s.saves && SavesSayRunning(s) && s.main.outcome != RunRunning
    ensures !OutcomeIsKept(s)
  {
    SaveUnsticks(s, id);
    TwoSteps(s, Serialise(id), Flush(id));
    OneStep(s, Flush(id));
    hide Next, Run;
    var more := if s.saves[id].Queued? then [Serialise(id), Flush(id)] else [Flush(id)];
    assert Run(s, more).store.status == RunRunning;
  }

  lemma QuietEndStays(s: State)
    requires s.main.Finished? && s.inFlight == map[] && s.saves == map[] && s.store.status == s.main.outcome
    ensures OutcomeIsKept(s)
  {
    forall more
      ensures Run(s, more).store.status == s.main.outcome
    {
      FinishedStays(s, more);
    }
  }

  lemma WrongStatusShows(s: State)
    requires s.main.Finished? && s.store.status != s.main.outcome
    ensures !OutcomeIsKept(s)
  {
    assert Run(s, []) == s;
  }

  /** The recorded outcome stays if and only if the store holds it and no save of a launch is under way. */
  lemma OutcomeStaysIff(init: State, steps: seq<Step>)
    requires Init(init) && !init.shared && Run(init, steps).main.Finished?
    ensures
      var s := Run(init, steps);
      OutcomeIsKept(s) <==> s.saves == map[] && s.store.status == s.main.outcome
  {
    var s := Run(init, steps);
    RunKeepsInv(init, steps);
    RunReportsAnEnd(init, steps);
    SavesRun(init, steps);
    assert s.inFlight == map[] by { assert MainOk(s); }
    hide Run, Inv, OutcomeIsKept;
    if s.store.status != s.main.outcome {
      WrongStatusShows(s);
    } else if s.saves == map[] {
      QuietEndStays(s);
    } else {
      var id :| id in s.saves;
      PendingSaveShows(s, id);
    }
  }
}
