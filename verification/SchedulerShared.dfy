/** `RunScheduler.execute` over a store that hands out one shared object: there the strategy its
    comments describe holds, and an uncancelled run of a fresh acyclic graph settles every task. */
module SchedulerShared {
  import opened BlockPropagation
  import opened RunScheduler
  import opened SchedulerRuns

  predicate Ranks(graph: seq<Task>, rank: map<TaskId, nat>)
  {
    && (forall i :: 0 <= i < |graph| ==> graph[i].id in rank)
    && (forall i, d :: 0 <= i < |graph| && d in graph[i].dependsOn ==> d in rank && rank[d] < rank[graph[i].id])
  }

  /** Every dependency is a task of the graph, every task is waiting. */
  ghost predicate Fresh(init: State)
  {
    && Init(init) && init.shared
    && (forall i :: 0 <= i < |init.graph| ==> BlockPropagation.Waiting(init.snapshot, init.graph[i].id))
    && (forall i, d :: 0 <= i < |init.graph| && d in init.graph[i].dependsOn ==> d in GraphIds(init.graph))
    && (forall id :: id in init.snapshot ==> id in GraphIds(init.graph))
  }

  /** No task is waiting on one that failed or was blocked. */
  predicate NoneWaitsOnWrong(graph: seq<Task>, tasks: Statuses)
  {
    forall i, d :: 0 <= i < |graph| && d in graph[i].dependsOn && WentWrong(tasks, d) ==>
      !BlockPropagation.Waiting(tasks, graph[i].id)
  }

  predicate VerdictStands(s: State)
  {
    s.shared && !s.abort && (s.main.Judged? || s.main.Recording? || s.main.Finished?) ==>
      s.main.outcome == Verdict(s.graph, false, s.snapshot)
  }

  lemma FinishWritesResult(s: State, id: TaskId, ok: bool)
    requires s.shared && AtWork(s, id)
    ensures
      var s' := FinishStep(s, id, ok);
      s'.graph == s.graph && s'.snapshot == WithResult(s.graph, s.snapshot, id, ok)
  {
    hide WithResult;
  }

  lemma NextKeepsNoneWaits(init: State, s: State, step: Step)
    requires Inv(init, s) && s.shared && NoneWaitsOnWrong(s.graph, s.snapshot)
    ensures NoneWaitsOnWrong(Next(s, step).graph, Next(s, step).snapshot)
  {
    var s' := Next(s, step);
    StepKinds(s, step);
    hide NoneWaitsOnWrong, Next, WithResult, Launchable;
    if Launches(s, s') {
      hide Inv;
      var i :| 0 <= i < |s.graph| && Launchable(s, s.graph[i]) && s' == Launch(s, s.graph[i]);
      LaunchKeepsNoneWaits(s.graph, s.snapshot, s.graph[i].id);
    } else if !Quiet(s, s') {
      assert HistoryOk(init, s) && SnapshotOk(init, s);
      hide Inv, HistoryOk, SnapshotOk, Quiet, Launches;
      FinishedWasRunning(init, s, step.id, step.ok);
      FinishWritesResult(s, step.id, step.ok);
      hide FinishStep;
      ResultKeepsNoneWaits(s.graph, s.snapshot, step.id, step.ok);
    } else {
      hide Inv, Launches;
    }
  }

  lemma FinishedWasRunning(init: State, s: State, id: TaskId, ok: bool)
    requires HistoryOk(init, s) && SnapshotOk(init, s) && AtWork(s, id)
    ensures id in s.snapshot && s.snapshot[id] == Running
  {
    assert SnapshotEntry(init, s, id);
  }

  lemma LaunchKeepsNoneWaits(graph: seq<Task>, tasks: Statuses, id: TaskId)
    requires NoneWaitsOnWrong(graph, tasks)
    ensures NoneWaitsOnWrong(graph, tasks[id := Running])
  {
    forall i, d | 0 <= i < |graph| && d in graph[i].dependsOn && WentWrong(tasks[id := Running], d)
      ensures !BlockPropagation.Waiting(tasks[id := Running], graph[i].id)
    {
      assert WentWrong(tasks, d);
    }
  }

  lemma ResultKeepsNoneWaits(graph: seq<Task>, tasks: Statuses, id: TaskId, ok: bool)
    requires NoneWaitsOnWrong(graph, tasks) && id in tasks && tasks[id] == Running
    ensures NoneWaitsOnWrong(graph, WithResult(graph, tasks, id, ok))
  {
    var failed, out := tasks[id := Failed], WithResult(graph, tasks, id, ok);
    NothingWaitsOnBlocked(graph, id, failed);
    WithResultEntries(graph, tasks, id, ok);
    forall i, d | 0 <= i < |graph| && d in graph[i].dependsOn && WentWrong(out, d)
      ensures !BlockPropagation.Waiting(out, graph[i].id)
    {
      assert Edge(graph, d, graph[i].id);
      assert WentWrong(tasks, d) ==> !BlockPropagation.Waiting(tasks, graph[i].id);
      hide Downstream, Propagate, NoneWaitsOnWrong, Edge;
    }
  }

  /** With nothing in flight and the loop over, the snapshot does not change any more. */
  lemma JudgedIsSettled(s: State, step: Step)
    requires s.inFlight == map[] && !s.main.Evaluating?
    ensures
      var s' := Next(s, step);
      && s'.snapshot == s.snapshot && s'.graph == s.graph && s'.shared == s.shared && (s.abort ==> s'.abort)
  {
    hide Verdict, Pick, WithResult;
    if step.Finish? {
      NextIsFinish(s, step.id, step.ok);
      hide Next;
    } else if !step.LaunchNext? {
      StepKinds(s, step);
    }
  }

  lemma JudgeGivesVerdict(s: State)
    requires VerdictStands(s)
    ensures VerdictStands(Next(s, Judge))
  {
    hide Verdict;
    assert Next(s, Judge) == JudgeStep(s);
    hide Next;
    if s.main.Draining? && s.inFlight == map[] {
    } else {
    }
  }

  lemma NextKeepsVerdict(init: State, s: State, step: Step)
    requires Inv(init, s) && VerdictStands(s)
    ensures VerdictStands(Next(s, step))
  {
    assert MainOk(s);
    hide Inv;
    if step.Judge? {
      JudgeGivesVerdict(s);
    } else {
      MainKeepsOutcome(s, step);
      hide Next, Verdict, NothingLaunchable;
      if s.main.Judged? || s.main.Recording? || s.main.Finished? {
        JudgedIsSettled(s, step);
      }
    }
  }

  lemma {:induction false} SharedRunKeeps(init: State, steps: seq<Step>)
    requires Fresh(init)
    ensures Inv(init, Run(init, steps)) && NoneWaitsOnWrong(Run(init, steps).graph, Run(init, steps).snapshot)
    ensures VerdictStands(Run(init, steps))
    decreases |steps|
  {
    RunKeepsInv(init, steps);
    if steps != [] {
      SharedRunKeeps(init, steps[..|steps| - 1]);
      var s := Run(init, steps[..|steps| - 1]);
      assert s.shared by { assert SameConfig(init, s); }
      hide Inv, Next, NoneWaitsOnWrong, VerdictStands;
      NextKeepsNoneWaits(init, s, steps[|steps| - 1]);
      NextKeepsVerdict(init, s, steps[|steps| - 1]);
    }
  }

  /** What a finished run leaves: nothing in flight, nothing launchable. */
  predicate AtRest(s: State)
  {
    s.maxParallel >= 1 && s.inFlight == map[] && NothingLaunchable(s)
  }

  lemma UnmetDependency(s: State, i: nat)
    requires AtRest(s) && i < |s.graph| && BlockPropagation.Waiting(s.snapshot, s.graph[i].id)
    ensures exists d :: d in s.graph[i].dependsOn && !Done(s.snapshot, d)
  {
    assert !Launchable(s, s.graph[i]);
  }

  /** By induction along the dependencies: at rest, if waiting tasks wait for waiting ones only, none is. */
  lemma {:induction false} NoneIsWaiting(s: State, rank: map<TaskId, nat>, i: nat)
    requires AtRest(s) && Ranks(s.graph, rank) && NoneWaitsOnWrong(s.graph, s.snapshot)
    requires forall j, d :: 0 <= j < |s.graph| && d in s.graph[j].dependsOn ==> d in GraphIds(s.graph)
    requires forall id :: id in GraphIds(s.graph) ==>
               BlockPropagation.Waiting(s.snapshot, id) || Done(s.snapshot, id) || WentWrong(s.snapshot, id)
    requires i < |s.graph|
    ensures !BlockPropagation.Waiting(s.snapshot, s.graph[i].id)
    decreases rank[s.graph[i].id]
  {
    if BlockPropagation.Waiting(s.snapshot, s.graph[i].id) {
      UnmetDependency(s, i);
      var d :| d in s.graph[i].dependsOn && !Done(s.snapshot, d);
      assert d in GraphIds(s.graph);
      hide AtRest, BlockPropagation.Waiting, Done, WentWrong;
      var j :| 0 <= j < |s.graph| && s.graph[j].id == d;
      NoneIsWaiting(s, rank, j);
    }
  }

  lemma SettledAtEnd(init: State, s: State, id: TaskId)
    requires Fresh(init) && Inv(init, s) && s.inFlight == map[] && id in GraphIds(s.graph)
    ensures id in s.snapshot && (id in s.results <==> id in s.started)
    ensures
      || (id !in s.results && BlockPropagation.Waiting(s.snapshot, id))
      || s.snapshot[id] == if id in s.results then Outcome(s.results[id]) else BlockedByUpstream
  {
    assert SnapshotEntry(init, s, id);
  }

  ghost predicate SomeFailed(s: State)
  {
    exists f :: f in s.results && !s.results[f]
  }

  ghost predicate BelowFailed(s: State, id: TaskId)
  {
    exists f :: f in s.results && !s.results[f] && Downstream(s.graph, f, id)
  }

  /** A task that starts has nothing failed anywhere upstream. */
  lemma InvSays(init: State, s: State)
    requires Inv(init, s)
    ensures DepsOk(s) && SameConfig(init, s) && SnapshotOk(init, s)
  {
  }

  lemma LeadsShorter(graph: seq<Task>, path: seq<TaskId>, f: TaskId, id: TaskId)
    requires Leads(graph, path, f, id) && |path| > 2
    ensures Leads(graph, path[..|path| - 1], f, path[|path| - 2])
  {
  }

  lemma {:induction false} UpstreamIsDone(init: State, s: State, path: seq<TaskId>, f: TaskId, id: TaskId)
    requires Fresh(init) && Inv(init, s) && s.inFlight == map[]
    requires Leads(s.graph, path, f, id) && id in s.started
    ensures Done(s.snapshot, f)
    decreases |path|
  {
    var previous := path[|path| - 2];
    assert Edge(s.graph, previous, id);
    hide Edge, Done, Fresh;
    FreshIsUnique(init);
    InvSays(init, s);
    hide Inv, SnapshotOk, DepsOk;
    DependencyIsDone(s, init, previous, id);
    if |path| > 2 {
      DoneWasStarted(init, s, previous);
      LeadsShorter(s.graph, path, f, id);
      UpstreamIsDone(init, s, path[..|path| - 1], f, previous);
    }
  }

  lemma FreshIsUnique(init: State)
    requires Fresh(init)
    ensures UniqueIds(init.graph)
  {
  }

  lemma DependencyIsDone(s: State, init: State, d: TaskId, id: TaskId)
    requires UniqueIds(s.graph) && DepsOk(s) && Edge(s.graph, d, id) && id in s.started
    ensures Done(s.snapshot, d)
  {
    var i :| 0 <= i < |s.graph| && s.graph[i].id == id && d in s.graph[i].dependsOn;
    assert DepsDone(s.snapshot, s.graph[i]);
  }

  lemma DoneWasStarted(init: State, s: State, id: TaskId)
    requires Fresh(init) && SameConfig(init, s) && SnapshotOk(init, s) && Done(s.snapshot, id)
    ensures id in s.started
  {
    assert SnapshotEntry(init, s, id);
    assert id in GraphIds(init.graph);
  }

  /** The documented strategy: an uncancelled run of a fresh acyclic graph gives every task its status.
      Exactly the tasks with nothing failed upstream have run, the others are blocked, and the run is
      reported completed if no runner failed, failed otherwise; never paused. */
  lemma SharedRunSettles(init: State, steps: seq<Step>, rank: map<TaskId, nat>)
    requires Fresh(init) && Ranks(init.graph, rank)
    requires Run(init, steps).main.Finished? && !Run(init, steps).abort
    ensures
      var s := Run(init, steps);
      && (forall id :: id in GraphIds(init.graph) ==>
            && id in s.snapshot
            && s.snapshot[id] == (if id in s.results then Outcome(s.results[id]) else BlockedByUpstream)
            && (id in s.results <==> !BelowFailed(s, id)))
      && s.main.outcome == if SomeFailed(s) then RunFailed else RunCompleted
  {
    SharedRunKeeps(init, steps);
    var s := Run(init, steps);
    hide Run;
    assert SameConfig(init, s) && AtRest(s) && VerdictStands(s);
    forall id | id in GraphIds(s.graph)
      ensures id in s.snapshot
      ensures s.snapshot[id] == if id in s.results then Outcome(s.results[id]) else BlockedByUpstream
      ensures id in s.results <==> !BelowFailed(s, id)
    {
      EndStatus(init, s, rank, id);
      EndCause(init, s, id);
    }
    assert s.main.outcome == Verdict(s.graph, false, s.snapshot);
    EndVerdict(init, s);
  }

  lemma EndStatus(init: State, s: State, rank: map<TaskId, nat>, id: TaskId)
    requires Fresh(init) && Inv(init, s) && AtRest(s) && Ranks(s.graph, rank) && NoneWaitsOnWrong(s.graph, s.snapshot)
    requires id in GraphIds(s.graph)
    ensures id in s.snapshot && (id in s.results <==> id in s.started)
    ensures s.snapshot[id] == if id in s.results then Outcome(s.results[id]) else BlockedByUpstream
  {
    assert s.graph == init.graph && s.inFlight == map[];
    forall x | x in GraphIds(s.graph)
      ensures BlockPropagation.Waiting(s.snapshot, x) || Done(s.snapshot, x) || WentWrong(s.snapshot, x)
    {
      SettledAtEnd(init, s, x);
    }
    SettledAtEnd(init, s, id);
    assert forall j, d :: 0 <= j < |s.graph| && d in s.graph[j].dependsOn ==> d in GraphIds(s.graph);
    hide Inv, Fresh;
    var i :| 0 <= i < |s.graph| && s.graph[i].id == id;
    NoneIsWaiting(s, rank, i);
  }

  lemma EndCause(init: State, s: State, id: TaskId)
    requires Fresh(init) && Inv(init, s) && s.inFlight == map[] && id in GraphIds(s.graph)
    requires id in s.snapshot && (id in s.results <==> id in s.started)
    requires s.snapshot[id] == if id in s.results then Outcome(s.results[id]) else BlockedByUpstream
    ensures id in s.results <==> !BelowFailed(s, id)
  {
    if id in s.results {
      if f :| f in s.results && !s.results[f] && Downstream(s.graph, f, id) {
        var path :| Leads(s.graph, path, f, id);
        UpstreamIsDone(init, s, path, f, id);
        SettledAtEnd(init, s, f);
      }
    } else {
      assert TrueEntry(init, s, id, s.snapshot[id]);
    }
  }

  lemma EndVerdict(init: State, s: State)
    requires Inv(init, s) && AtRest(s)
    requires forall id :: id in GraphIds(s.graph) ==>
               id in s.snapshot
                   && s.snapshot[id] == (if id in s.results then Outcome(s.results[id]) else BlockedByUpstream)
               && (id in s.results <==> !BelowFailed(s, id))
    ensures Verdict(s.graph, false, s.snapshot) == if SomeFailed(s) then RunFailed else RunCompleted
  {
    forall i | 0 <= i < |s.graph|
      ensures Settled(s.snapshot, s.graph[i].id)
      ensures WentWrong(s.snapshot, s.graph[i].id) ==> SomeFailed(s)
    {
      assert s.graph[i].id in GraphIds(s.graph);
    }
    if f :| f in s.results && !s.results[f] {
      assert f in s.started && f in GraphIds(s.graph);
      var i :| 0 <= i < |s.graph| && s.graph[i].id == f;
      assert WentWrong(s.snapshot, s.graph[i].id);
    }
  }
}
