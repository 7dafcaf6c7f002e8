/** The round-based executor `SpecOrchestrator.startRun`.

    `Rounds` is the loop as a function; `CompletedIsLeast` says what it computes without rounds: the
    least set of tasks closed under "dependencies completed and own outcome good". */
module Orchestrator {
  import opened Options

  type TaskId = string

  /** `expectsOutput` is `expectedOutputs.length > 0`. */
  datatype Task = Task(id: TaskId, dependencies: seq<TaskId>, expectsOutput: bool)

  /** What the runner does with a task: it returns an outcome with a status, or it throws. */
  datatype Outcome = Outcome(status: string) | Throws

  type Runner = Task -> Outcome

  predicate Good(runner: Runner, t: Task)
  {
    runner(t) == Outcome("completed") && t.expectsOutput
  }

  function Ids(tasks: seq<Task>): set<TaskId>
  {
    set i | 0 <= i < |tasks| :: tasks[i].id
  }

  predicate Ready(t: Task, completed: set<TaskId>, failed: set<TaskId>)
  {
    t.id !in completed && t.id !in failed && forall d :: d in t.dependencies ==> d in completed
  }

  // ---- one round ----------------------------------------------------------------------------

  function ReadyTasks(tasks: seq<Task>, completed: set<TaskId>, failed: set<TaskId>): (ready: seq<Task>)
    ensures forall t :: t in ready <==> t in tasks && Ready(t, completed, failed)
  {
    if tasks == [] then []
    else
      var rest := ReadyTasks(tasks[..|tasks| - 1], completed, failed);
      var last := tasks[|tasks| - 1];
      assert tasks == tasks[..|tasks| - 1] + [last];
      if Ready(last, completed, failed) then rest + [last] else rest
  }

  function GoodIds(ready: seq<Task>, runner: Runner): set<TaskId>
  {
    set i | 0 <= i < |ready| && Good(runner, ready[i]) :: ready[i].id
  }

  function BadIds(ready: seq<Task>, runner: Runner): set<TaskId>
  {
    set i | 0 <= i < |ready| && !Good(runner, ready[i]) :: ready[i].id
  }

  predicate AnyThrows(ready: seq<Task>, runner: Runner)
  {
    exists i :: 0 <= i < |ready| && runner(ready[i]).Throws?
  }

  datatype Ending = Finished | Blocked | Crashed

  datatype Progress = Progress(completed: set<TaskId>, failed: set<TaskId>, ending: Ending)

  /** The rounds of `startRun`: run every ready task, sort the outcomes, until all are accounted for,
      none is ready, or a runner throws. */
  function Rounds(tasks: seq<Task>, runner: Runner, completed: set<TaskId>, failed: set<TaskId>): Progress
    decreases Ids(tasks) - completed - failed
  {
    if |completed| + |failed| >= |Ids(tasks)| then Progress(completed, failed, Finished)
    else
      var ready := ReadyTasks(tasks, completed, failed);
      if ready == [] then Progress(completed, failed, Blocked)
      else if AnyThrows(ready, runner) then Progress(completed, failed, Crashed)
      else
        assert ready[0] in tasks && ready[0].id in Ids(tasks) - completed - failed;
        assert ready[0].id in GoodIds(ready, runner) + BadIds(ready, runner);
        Rounds(tasks, runner, completed + GoodIds(ready, runner), failed + BadIds(ready, runner))
  }

  // ---- the method ---------------------------------------------------------------------------

  datatype Status = NotStarted(name: string) | RunRunning | RunBlocked | RunFailed | RunCompleted

  datatype Run = Run(
    status: Status,
    approvals: set<string>,
    completed: set<TaskId>,
    failed: set<TaskId>,
    results: map<TaskId, Outcome>)

  datatype Reply = Rejected | Threw | Returned(run: Run)

  function StatusOf(p: Progress): Status
    requires !p.ending.Crashed?
  {
    if p.ending.Blocked? then RunBlocked else if p.failed != {} then RunFailed else RunCompleted
  }

  /** Each task this run settled has the outcome its runner gave; the other results are those of earlier runs. */
  ghost predicate Recorded(results: map<TaskId, Outcome>, start: Run, tasks: seq<Task>, runner: Runner,
                           completed: set<TaskId>, failed: set<TaskId>)
  {
    var settled := completed + failed - start.completed - start.failed;
    && results.Keys == start.results.Keys + settled
    && (forall id :: id in settled ==> OutcomeOf(tasks, runner, id, results[id]))
    && (forall id :: id in start.results && id !in settled ==> results[id] == start.results[id])
  }

  ghost predicate OutcomeOf(tasks: seq<Task>, runner: Runner, id: TaskId, outcome: Outcome)
  {
    exists t :: t in tasks && t.id == id && outcome == runner(t)
  }

  lemma NothingRecorded(start: Run, tasks: seq<Task>, runner: Runner)
    ensures Recorded(start.results, start, tasks, runner, start.completed, start.failed)
  {
  }

  lemma RecordedStep(before: map<TaskId, Outcome>, after: map<TaskId, Outcome>, start: Run, tasks: seq<Task>,
                     runner: Runner,
                     completed: set<TaskId>, failed: set<TaskId>, good: set<TaskId>, bad: set<TaskId>)
    requires Recorded(before, start, tasks, runner, completed, failed)
    requires start.completed <= completed && start.failed <= failed
    requires good + bad !! completed && good + bad !! failed
    requires after.Keys == before.Keys + (good + bad)
    requires forall id :: id in after && id !in good + bad ==> after[id] == before[id]
    requires forall id :: id in good + bad ==> OutcomeOf(tasks, runner, id, after[id])
    ensures Recorded(after, start, tasks, runner, completed + good, failed + bad)
  {
    hide OutcomeOf;
    var settled, settled' := completed + failed - start.completed - start.failed,
                             completed + good + (failed + bad) - start.completed - start.failed;
    assert settled' == settled + (good + bad);
  }

  /** The saved run record and the executor that advances it. */
  class SpecOrchestrator {
    var run: Run

    constructor (run: Run)
      ensures this.run == run
    {
      this.run := run;
    }

    method StartRun(batch: Option<seq<Task>>, runner: Runner) returns (reply: Reply)
      modifies this
      ensures reply.Rejected? <==> "task_batch" !in old(run).approvals || batch.None? || batch.value == []
      ensures reply.Rejected? ==> run == old(run)
      ensures !reply.Rejected? ==>
                var p := Rounds(batch.value, runner, old(run).completed, old(run).failed);
                && (reply.Threw? <==> p.ending.Crashed?)
                && (reply.Threw? ==> run == old(run).(status := RunRunning))
                && (reply.Returned? ==>
                      && reply.run == run
                      && run == Run(StatusOf(p), old(run).approvals, p.completed, p.failed, run.results)
                      && Recorded(run.results, old(run), batch.value, runner, p.completed, p.failed))
      ensures reply.Returned? && FitsBatch(batch.value, old(run).completed, old(run).failed) ==>
                StatusIsTrue(batch.value, run) && OutcomesDecide(batch.value, runner, old(run), run)
      ensures !reply.Rejected? && FitsBatch(batch.value, old(run).completed, old(run).failed) ==>
                var p := Rounds(batch.value, runner, old(run).completed, old(run).failed);
                reply.Threw? <==> MeetsThrow(batch.value, runner, p.completed, p.failed)
    {
      hide Recorded, OutcomeOf, Rounds, ReadyTasks, GoodIds, BadIds, Ids, AnyThrows;
      if "task_batch" !in run.approvals {
        return Rejected;
      }
      if batch.None? || batch.value == [] {
        return Rejected;
      }
      var tasks := batch.value;
      var startingRun := run.(status := RunRunning);
      run := startingRun;
      var completed, failed, results := startingRun.completed, startingRun.failed, startingRun.results;
      NothingRecorded(old(run), tasks, runner);
      ThrowsIff(tasks, runner, completed, failed);
      while |completed| + |failed| < |Ids(tasks)|
        invariant run == startingRun
        invariant Rounds(tasks, runner, completed, failed) == Rounds(tasks, runner, old(run).completed, old(run).failed)
        invariant old(run).completed <= completed && old(run).failed <= failed
        invariant Recorded(results, old(run), tasks, runner, completed, failed)
        decreases Ids(tasks) - completed - failed
      {
        var readyTasks := ReadyTasks(tasks, completed, failed);
        RoundUnfolds(tasks, runner, completed, failed);
        if readyTasks == [] {
          run := startingRun.(status := RunBlocked, completed := completed, failed := failed, results := results);
          ReturnedMeans(tasks, runner, old(run), run);
          return Returned(run);
        }
        if AnyThrows(readyTasks, runner) {
          return Threw;
        }
        ghost var before, completed0, failed0 := results, completed, failed;
        completed, failed, results := SortOutcomes(readyTasks, tasks, runner, completed, failed, results);
        RecordedStep(before, results, old(run), tasks, runner, completed0, failed0,
                     GoodIds(readyTasks, runner), BadIds(readyTasks, runner));
      }
      AllAccountedFor(tasks, runner, completed, failed);
      var finalStatus := if |failed| > 0 then RunFailed else RunCompleted;
      run := startingRun.(status := finalStatus, completed := completed, failed := failed, results := results);
      ReturnedMeans(tasks, runner, old(run), run);
      reply := Returned(run);
    }
  }

  /** The loop over the results of one round. */
  method SortOutcomes(ready: seq<Task>, ghost tasks: seq<Task>, runner: Runner, completed0: set<TaskId>,
                      failed0: set<TaskId>,
                      results0: map<TaskId, Outcome>)
    returns (completed: set<TaskId>, failed: set<TaskId>, results: map<TaskId, Outcome>)
    requires forall t :: t in ready ==> t in tasks
    ensures completed == completed0 + GoodIds(ready, runner)
    ensures failed == failed0 + BadIds(ready, runner)
    ensures forall id :: id in completed <==> id in completed0 || Ended(ready, runner, id, true)
    ensures forall id :: id in failed <==> id in failed0 || Ended(ready, runner, id, false)
    ensures results.Keys == results0.Keys + Ids(ready)
    ensures forall id :: id in results && id !in Ids(ready) ==> results[id] == results0[id]
    ensures forall id :: id in Ids(ready) ==> OutcomeOf(tasks, runner, id, results[id])
  {
    hide Ids, GoodIds, BadIds, OutcomeOf;
    completed, failed, results := completed0, failed0, results0;
    NoneYet(ready, runner);
    for i := 0 to |ready|
      invariant completed == completed0 + GoodIds(ready[..i], runner)
      invariant failed == failed0 + BadIds(ready[..i], runner)
      invariant results.Keys == results0.Keys + Ids(ready[..i])
      invariant forall id :: id in results && id !in Ids(ready[..i]) ==> results[id] == results0[id]
      invariant forall id :: id in Ids(ready[..i]) ==> OutcomeOf(tasks, runner, id, results[id])
    {
      var task := ready[i];
      var outcome := runner(task);
      OneMore(ready, i, runner);
      assert OutcomeOf(tasks, runner, task.id, outcome) by { ItsOutcome(tasks, runner, task); }
      results := results[task.id := outcome];
      if outcome == Outcome("completed") && task.expectsOutput {
        completed := completed + {task.id};
      } else {
        failed := failed + {task.id};
      }
    }
    assert ready[..|ready|] == ready;
    SortedApart(ready, runner);
  }

  /** A task of this id ended well: its runner says "completed" and an output was expected of it; or it did not. */
  predicate Ended(ready: seq<Task>, runner: Runner, id: TaskId, well: bool)
  {
    exists i :: 0 <= i < |ready| && ready[i].id == id
             && (well <==> runner(ready[i]) == Outcome("completed") && ready[i].expectsOutput)
  }

  lemma SortedApart(ready: seq<Task>, runner: Runner)
    ensures forall id :: id in GoodIds(ready, runner) <==> Ended(ready, runner, id, true)
    ensures forall id :: id in BadIds(ready, runner) <==> Ended(ready, runner, id, false)
  {
  }

  /** What the final status says: blocked with some task unsettled, completed with all of them completed, and
      failed with some of them failed and the rest completed. */
  ghost predicate StatusIsTrue(tasks: seq<Task>, run: Run)
  {
    && (run.status == RunBlocked <==> exists t :: t in tasks && t.id !in run.completed && t.id !in run.failed)
    && (run.status == RunCompleted <==> forall t :: t in tasks ==> t.id in run.completed)
    && (run.status == RunCompleted || run.status == RunFailed ==> (run.status == RunFailed <==> run.failed != {}))
    && (run.status == RunBlocked || run.status == RunCompleted || run.status == RunFailed)
  }

  /** A task that ran has the result its runner gave; it is completed if that says "completed" and an output was
      expected, and failed otherwise. A task not settled has not run. */
  ghost predicate OutcomesDecide(tasks: seq<Task>, runner: Runner, start: Run, run: Run)
  {
    forall t :: t in tasks && t.id !in start.completed && t.id !in start.failed ==>
      && (t.id in run.completed || t.id in run.failed ==>
            && t.id in run.results && run.results[t.id] == runner(t) && !runner(t).Throws?
            && (t.id in run.completed <==> runner(t) == Outcome("completed") && t.expectsOutput)
            && (t.id in run.failed <==> !(runner(t) == Outcome("completed") && t.expectsOutput)))
      && (t.id !in run.completed && t.id !in run.failed ==>
            && (t.id in run.results <==> t.id in start.results)
            && (t.id in run.results ==> run.results[t.id] == start.results[t.id]))
  }

  lemma ReturnedMeans(tasks: seq<Task>, runner: Runner, start: Run, run: Run)
    requires
      var p := Rounds(tasks, runner, start.completed, start.failed);
      && !p.ending.Crashed? && run.status == StatusOf(p) && run.completed == p.completed && run.failed == p.failed
      && Recorded(run.results, start, tasks, runner, p.completed, p.failed)
    ensures FitsBatch(tasks, start.completed, start.failed) ==>
              StatusIsTrue(tasks, run) && OutcomesDecide(tasks, runner, start, run)
  {
    if FitsBatch(tasks, start.completed, start.failed) {
      StatusMeans(tasks, runner, start, run);
      var p := Rounds(tasks, runner, start.completed, start.failed);
      RoundsFit(tasks, runner, start.completed, start.failed);
      assert p.completed !! p.failed && UniqueIds(tasks);
      hide Rounds, FitsBatch, Good, UniqueIds, StatusIsTrue;
      forall t | t in tasks && t.id !in start.completed && t.id !in start.failed
        ensures t.id in p.completed ==> Good(runner, t)
        ensures t.id in p.failed ==> !Good(runner, t)
        ensures t.id in p.completed || t.id in p.failed ==> !runner(t).Throws?
        ensures forall outcome :: OutcomeOf(tasks, runner, t.id, outcome) ==> outcome == runner(t)
      {
        OnlyGoodComplete(tasks, runner, start.completed, start.failed, t);
        FailedWereTried(tasks, runner, start.completed, start.failed, t);
        SettledDidNotThrow(tasks, runner, start.completed, start.failed, t);
        OneOutcome(tasks, runner, t);
      }
      RecordedDecides(tasks, runner, start, run);
    }
  }

  lemma OneOutcome(tasks: seq<Task>, runner: Runner, t: Task)
    requires UniqueIds(tasks) && t in tasks
    ensures forall outcome :: OutcomeOf(tasks, runner, t.id, outcome) ==> outcome == runner(t)
  {
    forall u | u in tasks && u.id == t.id
      ensures u == t
    {
      SameId(tasks, t, u);
    }
  }

  lemma RecordedDecides(tasks: seq<Task>, runner: Runner, start: Run, run: Run)
    requires Recorded(run.results, start, tasks, runner, run.completed, run.failed) && run.completed !! run.failed
    requires start.completed <= run.completed && start.failed <= run.failed
    requires forall t :: t in tasks && t.id !in start.completed && t.id !in start.failed ==>
               && (t.id in run.completed ==> Good(runner, t)) && (t.id in run.failed ==> !Good(runner, t))
               && (t.id in run.completed || t.id in run.failed ==> !runner(t).Throws?)
               && (forall outcome :: OutcomeOf(tasks, runner, t.id, outcome) ==> outcome == runner(t))
    ensures OutcomesDecide(tasks, runner, start, run)
  {
    hide OutcomeOf;
  }

  lemma TaskWith(tasks: seq<Task>, id: TaskId) returns (t: Task)
    requires id in Ids(tasks)
    ensures t in tasks && t.id == id
  {
    var i :| 0 <= i < |tasks| && tasks[i].id == id;
    t := tasks[i];
  }

  lemma StatusMeans(tasks: seq<Task>, runner: Runner, start: Run, run: Run)
    requires FitsBatch(tasks, start.completed, start.failed)
    requires
      var p := Rounds(tasks, runner, start.completed, start.failed);
      !p.ending.Crashed? && run.status == StatusOf(p) && run.completed == p.completed && run.failed == p.failed
    ensures StatusIsTrue(tasks, run)
  {
    var p := Rounds(tasks, runner, start.completed, start.failed);
    hide Rounds, Ready, Ids, UniqueIds;
    NothingLeftReady(tasks, runner, start.completed, start.failed);
    RoundsFit(tasks, runner, start.completed, start.failed);
    assert p.completed <= Ids(tasks) && p.failed <= Ids(tasks) && p.completed !! p.failed;
    hide FitsBatch;
    forall t | t in tasks
      ensures t.id in Ids(tasks)
    {
      IdsOf(tasks, t);
    }
    if p.ending.Blocked? {
      var id :| id in Ids(tasks) && id !in p.completed + p.failed;
      var t := TaskWith(tasks, id);
    } else if p.failed != {} {
      var id :| id in p.failed;
      var t := TaskWith(tasks, id);
      assert t.id !in run.completed;
    } else {
      assert p.completed == Ids(tasks);
    }
  }

  /** Some task is unsettled, has its dependencies completed and a runner that throws. */
  ghost predicate MeetsThrow(tasks: seq<Task>, runner: Runner, completed: set<TaskId>, failed: set<TaskId>)
  {
    exists t :: t in tasks && t.id !in completed && t.id !in failed && runner(t).Throws?
             && forall d :: d in t.dependencies ==> d in completed
  }

  /** A run breaks off exactly when it gets to such a task. */
  lemma {:induction false} ThrowsIff(tasks: seq<Task>, runner: Runner, completed: set<TaskId>, failed: set<TaskId>)
    ensures
      var p := Rounds(tasks, runner, completed, failed);
      && (p.ending.Crashed? ==> MeetsThrow(tasks, runner, p.completed, p.failed))
      && (FitsBatch(tasks, completed, failed) && MeetsThrow(tasks, runner, p.completed, p.failed) ==> p.ending.Crashed?)
    decreases Ids(tasks) - completed - failed
  {
    if FitsBatch(tasks, completed, failed) {
      NothingLeftReady(tasks, runner, completed, failed);
    }
    if |completed| + |failed| < |Ids(tasks)| {
      RoundUnfolds(tasks, runner, completed, failed);
      var ready := ReadyTasks(tasks, completed, failed);
      hide FitsBatch, Rounds, Ids, GoodIds, BadIds;
      if i :| 0 <= i < |ready| && runner(ready[i]).Throws? {
        assert ready[i] in ready;
      } else if ready != [] {
        ThrowsIff(tasks, runner, completed + GoodIds(ready, runner), failed + BadIds(ready, runner));
      }
    }
  }

  /** A round in which a runner throws settles nothing. */
  lemma {:induction false} SettledDidNotThrow(tasks: seq<Task>, runner: Runner, completed: set<TaskId>,
                                              failed: set<TaskId>, t: Task)
    requires UniqueIds(tasks) && t in tasks && t.id !in completed && t.id !in failed
    ensures
      var p := Rounds(tasks, runner, completed, failed);
      t.id in p.completed || t.id in p.failed ==> !runner(t).Throws?
    decreases Ids(tasks) - completed - failed
  {
    if |completed| + |failed| < |Ids(tasks)| {
      RoundUnfolds(tasks, runner, completed, failed);
      var ready := ReadyTasks(tasks, completed, failed);
      if ready != [] && !AnyThrows(ready, runner) {
        var completed', failed' := completed + GoodIds(ready, runner), failed + BadIds(ready, runner);
        if t.id in completed' || t.id in failed' {
          var i :| 0 <= i < |ready| && ready[i].id == t.id;
          assert ready[i] in ready;
          SameId(tasks, t, ready[i]);
        } else {
          SettledDidNotThrow(tasks, runner, completed', failed', t);
        }
      }
    }
  }

  lemma AllAccountedFor(tasks: seq<Task>, runner: Runner, completed: set<TaskId>, failed: set<TaskId>)
    requires |completed| + |failed| >= |Ids(tasks)|
    ensures Rounds(tasks, runner, completed, failed) == Progress(completed, failed, Finished)
  {
  }

  /** One round of the loop. */
  lemma RoundUnfolds(tasks: seq<Task>, runner: Runner, completed: set<TaskId>, failed: set<TaskId>)
    requires |completed| + |failed| < |Ids(tasks)|
    ensures
      var ready := ReadyTasks(tasks, completed, failed);
      && (ready == [] ==> Rounds(tasks, runner, completed, failed) == Progress(completed, failed, Blocked))
      && (ready != [] && AnyThrows(ready, runner) ==>
            Rounds(tasks, runner, completed, failed) == Progress(completed, failed, Crashed))
      && (ready != [] && !AnyThrows(ready, runner) ==>
            var completed', failed' := completed + GoodIds(ready, runner), failed + BadIds(ready, runner);
            && Rounds(tasks, runner, completed, failed) == Rounds(tasks, runner, completed', failed')
            && Ids(tasks) - completed' - failed' < Ids(tasks) - completed - failed)
      && Ids(ready) == GoodIds(ready, runner) + BadIds(ready, runner)
      && Ids(ready) !! completed && Ids(ready) !! failed
  {
    ReadyIds(tasks, completed, failed, runner);
    var ready := ReadyTasks(tasks, completed, failed);
    if ready != [] {
      assert ready[0].id in Ids(tasks) - completed - failed;
    }
  }

  lemma NoneYet(ready: seq<Task>, runner: Runner)
    ensures Ids(ready[..0]) == {} && GoodIds(ready[..0], runner) == {} && BadIds(ready[..0], runner) == {}
  {
  }

  lemma ItsOutcome(tasks: seq<Task>, runner: Runner, t: Task)
    requires t in tasks
    ensures OutcomeOf(tasks, runner, t.id, runner(t))
  {
  }

  lemma OneMore(ready: seq<Task>, i: nat, runner: Runner)
    requires i < |ready|
    ensures Ids(ready[..i + 1]) == Ids(ready[..i]) + {ready[i].id}
    ensures GoodIds(ready[..i + 1], runner) ==
            GoodIds(ready[..i], runner) + (if Good(runner, ready[i]) then {ready[i].id} else {})
    ensures BadIds(ready[..i + 1], runner) ==
            BadIds(ready[..i], runner) + (if Good(runner, ready[i]) then {} else {ready[i].id})
  {
    var more := ready[..i + 1];
    assert more[..i] == ready[..i] && more[i] == ready[i];
    assert forall k :: 0 <= k < i ==> more[k] == ready[..i][k];
  }

  /** The ready tasks are new, and each lands in exactly one of the two sets of ids. */
  lemma ReadyIds(tasks: seq<Task>, completed: set<TaskId>, failed: set<TaskId>, runner: Runner)
    ensures
      var ready := ReadyTasks(tasks, completed, failed);
      && Ids(ready) == GoodIds(ready, runner) + BadIds(ready, runner)
      && Ids(ready) <= Ids(tasks) && Ids(ready) !! completed && Ids(ready) !! failed
      && (ready != [] ==> ready[0].id in Ids(ready))
  {
    var ready := ReadyTasks(tasks, completed, failed);
    forall i | 0 <= i < |ready|
      ensures ready[i].id in Ids(tasks) && Ready(ready[i], completed, failed)
    {
      assert ready[i] in ready;
      var k :| 0 <= k < |tasks| && tasks[k] == ready[i];
    }
  }

  // ---- what the rounds compute ---------------------------------------------------------------

  predicate UniqueIds(tasks: seq<Task>)
  {
    forall i, j :: 0 <= i < j < |tasks| ==> tasks[i].id != tasks[j].id
  }

  /** What `startRun` takes for granted about a run record: its ids are ids of this batch. */
  predicate FitsBatch(tasks: seq<Task>, completed: set<TaskId>, failed: set<TaskId>)
  {
    UniqueIds(tasks) && completed <= Ids(tasks) && failed <= Ids(tasks) && completed !! failed
  }

  predicate DependenciesIn(t: Task, s: set<TaskId>)
  {
    forall d :: d in t.dependencies ==> d in s
  }

  /** `s` holds everything completed before, and with all dependencies of a good task the task itself. */
  ghost predicate Closed(tasks: seq<Task>, runner: Runner, completed: set<TaskId>, failed: set<TaskId>, s: set<TaskId>)
  {
    completed <= s &&
    forall t :: t in tasks && t.id !in failed && DependenciesIn(t, s) && Good(runner, t) ==> t.id in s
  }

  lemma IdsOf(tasks: seq<Task>, t: Task)
    requires t in tasks
    ensures t.id in Ids(tasks)
  {
    var i :| 0 <= i < |tasks| && tasks[i] == t;
  }

  /** `Rounds` only ever adds, keeps the two sets apart, and stays inside the batch. */
  lemma {:induction false} RoundsFit(tasks: seq<Task>, runner: Runner, completed: set<TaskId>, failed: set<TaskId>)
    requires FitsBatch(tasks, completed, failed)
    ensures
      var p := Rounds(tasks, runner, completed, failed);
      completed <= p.completed && failed <= p.failed && FitsBatch(tasks, p.completed, p.failed)
    decreases Ids(tasks) - completed - failed
  {
    if |completed| + |failed| < |Ids(tasks)| {
      RoundUnfolds(tasks, runner, completed, failed);
      var ready := ReadyTasks(tasks, completed, failed);
      if ready != [] && !AnyThrows(ready, runner) {
        RoundFits(tasks, runner, completed, failed);
        RoundsFit(tasks, runner, completed + GoodIds(ready, runner), failed + BadIds(ready, runner));
      }
    }
  }

  lemma OneSideOnly(tasks: seq<Task>, ready: seq<Task>, runner: Runner)
    requires UniqueIds(tasks) && forall t :: t in ready ==> t in tasks
    ensures GoodIds(ready, runner) !! BadIds(ready, runner)
  {
    forall i, j | 0 <= i < |ready| && 0 <= j < |ready| && ready[i].id == ready[j].id
      ensures ready[i] == ready[j]
    {
      SameId(tasks, ready[i], ready[j]);
    }
  }

  lemma SameId(tasks: seq<Task>, t: Task, u: Task)
    requires UniqueIds(tasks) && t in tasks && u in tasks && t.id == u.id
    ensures t == u
  {
    var i :| 0 <= i < |tasks| && tasks[i] == t;
    var j :| 0 <= j < |tasks| && tasks[j] == u;
  }

  /** Everything a round completes is forced by closure. */
  lemma {:induction false} WithinEveryClosed(tasks: seq<Task>, runner: Runner, completed0: set<TaskId>,
                                             failed0: set<TaskId>,
                                             completed: set<TaskId>, failed: set<TaskId>, s: set<TaskId>)
    requires Closed(tasks, runner, completed0, failed0, s) && completed <= s && failed0 <= failed
    ensures Rounds(tasks, runner, completed, failed).completed <= s
    decreases Ids(tasks) - completed - failed
  {
    if |completed| + |failed| < |Ids(tasks)| {
      RoundUnfolds(tasks, runner, completed, failed);
      var ready := ReadyTasks(tasks, completed, failed);
      if ready != [] && !AnyThrows(ready, runner) {
        forall i | 0 <= i < |ready| && Good(runner, ready[i])
          ensures ready[i].id in s
        {
          assert ready[i] in ready && DependenciesIn(ready[i], s);
        }
        WithinEveryClosed(tasks, runner, completed0, failed0,
                          completed + GoodIds(ready, runner), failed + BadIds(ready, runner), s);
      }
    }
  }

  /** Every task that failed in this run had its dependencies completed and a bad outcome. */
  lemma {:induction false} FailedWereTried(tasks: seq<Task>, runner: Runner, completed: set<TaskId>,
                                           failed: set<TaskId>, t: Task)
    requires UniqueIds(tasks) && t in tasks && t.id !in failed
    ensures t.id in Rounds(tasks, runner, completed, failed).failed ==>
              DependenciesIn(t, Rounds(tasks, runner, completed, failed).completed) && !Good(runner, t)
    decreases Ids(tasks) - completed - failed
  {
    if |completed| + |failed| < |Ids(tasks)| {
      RoundUnfolds(tasks, runner, completed, failed);
      var ready := ReadyTasks(tasks, completed, failed);
      if ready != [] && !AnyThrows(ready, runner) {
        var completed', failed' := completed + GoodIds(ready, runner), failed + BadIds(ready, runner);
        if t.id in failed' {
          var i :| 0 <= i < |ready| && !Good(runner, ready[i]) && ready[i].id == t.id;
          assert ready[i] in ready;
          SameId(tasks, t, ready[i]);
          RoundsGrow(tasks, runner, completed', failed');
        } else {
          FailedWereTried(tasks, runner, completed', failed', t);
        }
      }
    }
  }

  lemma {:induction false} RoundsGrow(tasks: seq<Task>, runner: Runner, completed: set<TaskId>, failed: set<TaskId>)
    ensures completed <= Rounds(tasks, runner, completed, failed).completed
    ensures failed <= Rounds(tasks, runner, completed, failed).failed
    decreases Ids(tasks) - completed - failed
  {
    if |completed| + |failed| < |Ids(tasks)| {
      RoundUnfolds(tasks, runner, completed, failed);
      var ready := ReadyTasks(tasks, completed, failed);
      if ready != [] && !AnyThrows(ready, runner) {
        RoundsGrow(tasks, runner, completed + GoodIds(ready, runner), failed + BadIds(ready, runner));
      }
    }
  }

  /** A finished run accounts for every task; a blocked one leaves nothing ready. */
  lemma {:induction false} NothingLeftReady(tasks: seq<Task>, runner: Runner, completed: set<TaskId>,
                                            failed: set<TaskId>)
    requires FitsBatch(tasks, completed, failed)
    ensures
      var p := Rounds(tasks, runner, completed, failed);
      && (p.ending.Finished? ==> p.completed + p.failed == Ids(tasks))
      && (p.ending.Blocked? ==> p.completed + p.failed < Ids(tasks))
      && (!p.ending.Crashed? ==> forall t :: t in tasks ==> !Ready(t, p.completed, p.failed))
    decreases Ids(tasks) - completed - failed
  {
    hide Rounds, GoodIds, BadIds, Ids, FitsBatch, AnyThrows;
    if |completed| + |failed| >= |Ids(tasks)| {
      AllSettled(tasks, completed, failed);
      AllAccountedFor(tasks, runner, completed, failed);
    } else {
      RoundUnfolds(tasks, runner, completed, failed);
      var ready := ReadyTasks(tasks, completed, failed);
      if ready == [] {
        SomeUnsettled(tasks, completed, failed);
        assert forall t :: t in tasks ==> t in ready || !Ready(t, completed, failed);
      } else if !AnyThrows(ready, runner) {
        RoundFits(tasks, runner, completed, failed);
        NothingLeftReady(tasks, runner, completed + GoodIds(ready, runner), failed + BadIds(ready, runner));
      }
    }
  }

  lemma RoundFits(tasks: seq<Task>, runner: Runner, completed: set<TaskId>, failed: set<TaskId>)
    requires FitsBatch(tasks, completed, failed)
    ensures
      var ready := ReadyTasks(tasks, completed, failed);
      FitsBatch(tasks, completed + GoodIds(ready, runner), failed + BadIds(ready, runner))
  {
    ReadyIds(tasks, completed, failed, runner);
    hide GoodIds, BadIds, Ids;
    OneSideOnly(tasks, ReadyTasks(tasks, completed, failed), runner);
  }

  lemma SomeUnsettled(tasks: seq<Task>, completed: set<TaskId>, failed: set<TaskId>)
    requires FitsBatch(tasks, completed, failed) && |completed| + |failed| < |Ids(tasks)|
    ensures completed + failed < Ids(tasks)
  {
    hide Ids;
    assert |completed + failed| == |completed| + |failed|;
    assert completed + failed <= Ids(tasks);
    assert completed + failed != Ids(tasks);
  }

  lemma AllSettled(tasks: seq<Task>, completed: set<TaskId>, failed: set<TaskId>)
    requires FitsBatch(tasks, completed, failed) && |completed| + |failed| >= |Ids(tasks)|
    ensures completed + failed == Ids(tasks)
    ensures forall t :: t in tasks ==> !Ready(t, completed, failed)
  {
    hide Ids;
    assert |completed + failed| == |completed| + |failed|;
    SubsetOfSameSize(completed + failed, Ids(tasks));
    forall t | t in tasks
      ensures !Ready(t, completed, failed)
    {
      IdsOf(tasks, t);
    }
  }

  lemma SubsetOfSameSize<T>(a: set<T>, b: set<T>)
    requires a <= b && |a| >= |b|
    ensures a == b
  {
    assert |b - a| == |b| - |a|;
  }

  /** The completed set is the least fixpoint: closed, and inside every closed set. The failed set is what
      could be tried and did not come out good. */
  ghost predicate LeastFixpoint(tasks: seq<Task>, runner: Runner, completed: set<TaskId>, failed: set<TaskId>,
                                p: Progress)
  {
    && Closed(tasks, runner, completed, failed, p.completed)
    && (forall s :: Closed(tasks, runner, completed, failed, s) ==> p.completed <= s)
    && (forall t :: t in tasks ==>
          (t.id in p.failed <==>
              t.id in failed || (t.id !in completed && DependenciesIn(t, p.completed) && !Good(runner, t))))
  }

  /** Unless a runner throws, the rounds compute it. */
  lemma CompletedIsLeast(tasks: seq<Task>, runner: Runner, completed: set<TaskId>, failed: set<TaskId>)
    requires FitsBatch(tasks, completed, failed)
    ensures
      var p := Rounds(tasks, runner, completed, failed);
      !p.ending.Crashed? ==> LeastFixpoint(tasks, runner, completed, failed, p)
  {
    var p := Rounds(tasks, runner, completed, failed);
    if !p.ending.Crashed? {
      RoundsFit(tasks, runner, completed, failed);
      NothingLeftReady(tasks, runner, completed, failed);
      forall s | Closed(tasks, runner, completed, failed, s)
        ensures p.completed <= s
      {
        WithinEveryClosed(tasks, runner, completed, failed, completed, failed, s);
      }
      forall t | t in tasks && t.id !in failed && DependenciesIn(t, p.completed)
        ensures t.id !in completed && !Good(runner, t) ==> t.id in p.failed
        ensures Good(runner, t) ==> t.id in p.completed
      {
        assert !Ready(t, p.completed, p.failed);
        if t.id in p.failed {
          FailedWereTried(tasks, runner, completed, failed, t);
        } else if !Good(runner, t) && t.id !in completed {
          OnlyGoodComplete(tasks, runner, completed, failed, t);
        }
      }
      forall t | t in tasks && t.id in p.failed && t.id !in failed
        ensures DependenciesIn(t, p.completed) && !Good(runner, t)
      {
        FailedWereTried(tasks, runner, completed, failed, t);
      }
    }
  }

  /** Every task completed in this run came out good with its dependencies completed. */
  lemma {:induction false} OnlyGoodComplete(tasks: seq<Task>, runner: Runner, completed: set<TaskId>,
                                            failed: set<TaskId>, t: Task)
    requires UniqueIds(tasks) && t in tasks && t.id !in completed
    ensures t.id in Rounds(tasks, runner, completed, failed).completed ==>
              Good(runner, t) && DependenciesIn(t, Rounds(tasks, runner, completed, failed).completed)
    decreases Ids(tasks) - completed - failed
  {
    if |completed| + |failed| < |Ids(tasks)| {
      RoundUnfolds(tasks, runner, completed, failed);
      var ready := ReadyTasks(tasks, completed, failed);
      if ready != [] && !AnyThrows(ready, runner) {
        var completed', failed' := completed + GoodIds(ready, runner), failed + BadIds(ready, runner);
        if t.id in completed' {
          var i :| 0 <= i < |ready| && Good(runner, ready[i]) && ready[i].id == t.id;
          assert ready[i] in ready;
          SameId(tasks, t, ready[i]);
          RoundsGrow(tasks, runner, completed', failed');
        } else {
          OnlyGoodComplete(tasks, runner, completed', failed', t);
        }
      }
    }
  }

  ghost predicate SameTasks(tasks: seq<Task>, other: seq<Task>)
  {
    forall t :: t in tasks <==> t in other
  }

  /** The order in which a batch lists its tasks, and so the order inside a round, does not matter, whatever the
      start sets and the runner: not even for a run that ends because a runner throws. */
  lemma {:induction false} OrderDoesNotMatter(tasks: seq<Task>, other: seq<Task>, runner: Runner,
                                              completed: set<TaskId>, failed: set<TaskId>)
    requires SameTasks(tasks, other)
    ensures Rounds(tasks, runner, completed, failed) == Rounds(other, runner, completed, failed)
    decreases Ids(tasks) - completed - failed
  {
    hide Rounds, Ids, GoodIds, BadIds, AnyThrows, SameTasks;
    var ready, ready' := ReadyTasks(tasks, completed, failed), ReadyTasks(other, completed, failed);
    SameTasksSameIds(tasks, other, runner);
    if |completed| + |failed| >= |Ids(tasks)| {
      AllAccountedFor(tasks, runner, completed, failed);
      AllAccountedFor(other, runner, completed, failed);
    } else {
      SameTasksSameReady(tasks, other, completed, failed);
      SameTasksSameIds(ready, ready', runner);
      NoTasks(ready, ready');
      RoundUnfolds(tasks, runner, completed, failed);
      RoundUnfolds(other, runner, completed, failed);
      if ready != [] && !AnyThrows(ready, runner) {
        OrderDoesNotMatter(tasks, other, runner, completed + GoodIds(ready, runner), failed + BadIds(ready, runner));
      }
    }
  }

  lemma NoTasks(tasks: seq<Task>, other: seq<Task>)
    requires SameTasks(tasks, other)
    ensures tasks == [] <==> other == []
  {
    assert tasks != [] ==> tasks[0] in other;
    assert other != [] ==> other[0] in tasks;
  }

  lemma SameTasksSameReady(tasks: seq<Task>, other: seq<Task>, completed: set<TaskId>, failed: set<TaskId>)
    requires SameTasks(tasks, other)
    ensures SameTasks(ReadyTasks(tasks, completed, failed), ReadyTasks(other, completed, failed))
  {
    hide Ready;
  }

  /** The sets made of a batch do not depend on its order. */
  lemma SameTasksSameIds(tasks: seq<Task>, other: seq<Task>, runner: Runner)
    requires SameTasks(tasks, other)
    ensures Ids(tasks) == Ids(other)
    ensures GoodIds(tasks, runner) == GoodIds(other, runner) && BadIds(tasks, runner) == BadIds(other, runner)
    ensures AnyThrows(tasks, runner) <==> AnyThrows(other, runner)
  {
    IdsAmong(tasks, other, runner);
    IdsAmong(other, tasks, runner);
    hide Good;
  }

  lemma IdsAmong(tasks: seq<Task>, other: seq<Task>, runner: Runner)
    requires forall t :: t in tasks ==> t in other
    ensures Ids(tasks) <= Ids(other)
    ensures GoodIds(tasks, runner) <= GoodIds(other, runner) && BadIds(tasks, runner) <= BadIds(other, runner)
    ensures AnyThrows(tasks, runner) ==> AnyThrows(other, runner)
  {
    hide Good;
    forall i | 0 <= i < |tasks|
      ensures exists k :: 0 <= k < |other| && other[k] == tasks[i]
    {
      assert tasks[i] in other;
    }
  }

  // ---- when a run blocks ---------------------------------------------------------------------

  /** `b` is a dependency of the task with id `a`. */
  predicate DependsOn(tasks: seq<Task>, a: TaskId, b: TaskId)
  {
    exists i :: 0 <= i < |tasks| && tasks[i].id == a && b in tasks[i].dependencies
  }

  /** A chain of dependencies through tasks not settled before the run. */
  predicate Chain(tasks: seq<Task>, completed: set<TaskId>, failed: set<TaskId>, path: seq<TaskId>)
  {
    && |path| >= 1
    && (forall i :: 0 <= i < |path| - 1 ==> path[i] in Ids(tasks) && path[i] !in completed && path[i] !in failed)
    && (forall i :: 0 <= i < |path| - 1 ==> DependsOn(tasks, path[i], path[i + 1]))
  }

  /** A chain from `id` to a failed task, to an id no task has, or back into itself. */
  predicate Hopeless(tasks: seq<Task>, completed: set<TaskId>, failed: set<TaskId>, failedAtEnd: set<TaskId>,
                     id: TaskId, path: seq<TaskId>)
  {
    && Chain(tasks, completed, failed, path) && |path| >= 2 && path[0] == id
    && (var last := path[|path| - 1];
        last in failedAtEnd || last !in Ids(tasks) || last in path[..|path| - 1])
  }

  /** No task on a hopeless chain is ever completed. */
  lemma HopelessNeverCompletes(tasks: seq<Task>, runner: Runner, completed: set<TaskId>, failed: set<TaskId>,
                               id: TaskId, path: seq<TaskId>)
    requires FitsBatch(tasks, completed, failed)
    requires !Rounds(tasks, runner, completed, failed).ending.Crashed?
    requires Hopeless(tasks, completed, failed, Rounds(tasks, runner, completed, failed).failed, id, path)
    ensures forall i :: 0 <= i < |path| - 1 ==> path[i] !in Rounds(tasks, runner, completed, failed).completed
  {
    var p := Rounds(tasks, runner, completed, failed);
    CompletedIsLeast(tasks, runner, completed, failed);
    RoundsFit(tasks, runner, completed, failed);
    hide Rounds, Ids, Hopeless, Good, Closed;
    var onPath := set i | 0 <= i < |path| - 1 :: path[i];
    RestIsClosed(tasks, runner, completed, failed, p, id, path, onPath);
    assert p.completed <= p.completed - onPath;
  }

  /** What is left of the completed set without the tasks of such a chain is closed already. */
  lemma RestIsClosed(tasks: seq<Task>, runner: Runner, completed: set<TaskId>, failed: set<TaskId>, p: Progress,
                     id: TaskId, path: seq<TaskId>, onPath: set<TaskId>)
    requires FitsBatch(tasks, completed, failed) && Closed(tasks, runner, completed, failed, p.completed)
    requires p.completed <= Ids(tasks) && p.completed !! p.failed
    requires Hopeless(tasks, completed, failed, p.failed, id, path)
    requires onPath == set i | 0 <= i < |path| - 1 :: path[i]
    ensures Closed(tasks, runner, completed, failed, p.completed - onPath)
  {
    hide Ids, Good;
    var rest, last := p.completed - onPath, path[|path| - 1];
    forall j | 1 <= j < |path|
      ensures path[j] !in rest
    {
      if j < |path| - 1 {
        assert path[j] in onPath;
      } else if path[j] in path[..|path| - 1] {
        var k :| 0 <= k < |path| - 1 && path[k] == path[j];
        assert path[k] in onPath;
      }
    }
    forall t | t in tasks && t.id in onPath
      ensures !DependenciesIn(t, rest)
    {
      var i :| 0 <= i < |path| - 1 && path[i] == t.id;
      assert DependsOn(tasks, path[i], path[i + 1]);
      var k :| 0 <= k < |tasks| && tasks[k].id == path[i] && path[i + 1] in tasks[k].dependencies;
      SameId(tasks, t, tasks[k]);
    }
    forall t | t in tasks && t.id !in failed && DependenciesIn(t, rest) && Good(runner, t)
      ensures t.id in rest
    {
      assert DependenciesIn(t, p.completed);
    }
  }

  lemma {:induction false} DistinctFit(path: seq<TaskId>, s: set<TaskId>)
    requires NoneTwice(path) && forall i :: 0 <= i < |path| ==> path[i] in s
    ensures |path| <= |s|
  {
    if path != [] {
      var last := path[|path| - 1];
      DistinctFit(path[..|path| - 1], s - {last});
    }
  }

  /** In a blocked run an unsettled task has a dependency that is not completed. */
  lemma NextOnChain(tasks: seq<Task>, completed: set<TaskId>, failed: set<TaskId>, id: TaskId) returns (next: TaskId)
    requires id in Ids(tasks) && id !in completed && id !in failed
    requires forall t :: t in tasks ==> !Ready(t, completed, failed)
    ensures next !in completed && DependsOn(tasks, id, next)
  {
    var k :| 0 <= k < |tasks| && tasks[k].id == id;
    assert !Ready(tasks[k], completed, failed);
    next :| next in tasks[k].dependencies && next !in completed;
  }

  /** `path` is a chain of different tasks that a blocked run left unsettled. */
  predicate UnsettledChain(tasks: seq<Task>, completed: set<TaskId>, failed: set<TaskId>, p: Progress,
                           path: seq<TaskId>)
  {
    && Chain(tasks, completed, failed, path)
    && (forall i, j :: 0 <= i < j < |path| ==> path[i] != path[j])
    && (forall i :: 0 <= i < |path| ==> path[i] in Ids(tasks) && path[i] !in p.completed && path[i] !in p.failed)
  }

  /** A chain of unsettled tasks can be followed until it turns out hopeless. */
  lemma {:induction false} FollowChain(tasks: seq<Task>, completed: set<TaskId>, failed: set<TaskId>, p: Progress,
                                       path: seq<TaskId>)
    returns (longer: seq<TaskId>)
    requires completed <= p.completed && failed <= p.failed
    requires forall t :: t in tasks ==> !Ready(t, p.completed, p.failed)
    requires UnsettledChain(tasks, completed, failed, p, path)
    ensures Hopeless(tasks, completed, failed, p.failed, path[0], longer)
    decreases |Ids(tasks)| - |path|
  {
    hide Ids, DependsOn, Ready;
    var next := NextOnChain(tasks, p.completed, p.failed, path[|path| - 1]);
    longer := path + [next];
    assert longer[..|longer| - 1] == path;
    assert Chain(tasks, completed, failed, longer);
    if next !in p.failed && next in Ids(tasks) && next !in path {
      assert UnsettledChain(tasks, completed, failed, p, longer);
      DistinctFit(longer, Ids(tasks));
      longer := FollowChain(tasks, completed, failed, p, longer);
    }
  }

  /** `startRun` ends blocked exactly when some unsettled task depends, through unsettled tasks, on a
      failed task, on an id no task has, or on itself. */
  lemma BlockedIffHopeless(tasks: seq<Task>, runner: Runner, completed: set<TaskId>, failed: set<TaskId>)
    requires FitsBatch(tasks, completed, failed)
    ensures
      var p := Rounds(tasks, runner, completed, failed);
      !p.ending.Crashed? ==>
        (p.ending.Blocked? <==> exists id, path :: Hopeless(tasks, completed, failed, p.failed, id, path))
  {
    var p := Rounds(tasks, runner, completed, failed);
    if p.ending.Crashed? {
      return;
    }
    NothingLeftReady(tasks, runner, completed, failed);
    RoundsFit(tasks, runner, completed, failed);
    hide Rounds, Hopeless, Ready, Chain, Ids, Good, FitsBatch;
    if p.ending.Blocked? {
      assert p.completed + p.failed != Ids(tasks);
      var id := Unsettled(Ids(tasks), p.completed, p.failed);
      SingleChain(tasks, completed, failed, p, id);
      var path := FollowChain(tasks, completed, failed, p, [id]);
    } else if id, path :| Hopeless(tasks, completed, failed, p.failed, id, path) {
      HopelessIsUnsettled(tasks, runner, completed, failed, id, path);
    }
  }

  lemma Unsettled(all: set<TaskId>, completed: set<TaskId>, failed: set<TaskId>) returns (id: TaskId)
    requires completed + failed < all
    ensures id in all && id !in completed && id !in failed
  {
    id :| id in all && id !in completed + failed;
  }

  lemma SingleChain(tasks: seq<Task>, completed: set<TaskId>, failed: set<TaskId>, p: Progress, id: TaskId)
    requires id in Ids(tasks) && id !in p.completed && id !in p.failed
    ensures UnsettledChain(tasks, completed, failed, p, [id])
  {
  }

  /** The task at the head of a hopeless chain ends neither completed nor failed. */
  lemma HopelessIsUnsettled(tasks: seq<Task>, runner: Runner, completed: set<TaskId>, failed: set<TaskId>,
                            id: TaskId, path: seq<TaskId>)
    requires FitsBatch(tasks, completed, failed)
    requires !Rounds(tasks, runner, completed, failed).ending.Crashed?
    requires Hopeless(tasks, completed, failed, Rounds(tasks, runner, completed, failed).failed, id, path)
    ensures
      var p := Rounds(tasks, runner, completed, failed);
      id in Ids(tasks) && id !in p.completed && id !in p.failed && p.ending.Blocked?
  {
    var p := Rounds(tasks, runner, completed, failed);
    HopelessNeverCompletes(tasks, runner, completed, failed, id, path);
    CompletedIsLeast(tasks, runner, completed, failed);
    NothingLeftReady(tasks, runner, completed, failed);
    RoundsFit(tasks, runner, completed, failed);
    hide Rounds, Ids, Good;
    assert path[0] == id && DependsOn(tasks, path[0], path[1]);
    var k :| 0 <= k < |tasks| && tasks[k].id == id && path[1] in tasks[k].dependencies;
    assert path[1] !in p.completed by {
      if |path| > 2 {
        assert path[1] !in p.completed;
      } else if path[1] in path[..1] {
        assert path[1] == path[0];
      }
    }
    assert tasks[k] in tasks && !DependenciesIn(tasks[k], p.completed);
  }

  // ---- where the loop guard is wrong ---------------------------------------------------------

  /** The guard compares counts. With a completed id left over from an earlier batch, `FitsBatch` fails and
      a run can finish as completed without having run its only task. */
  lemma StaleIdSkipsTask()
    ensures
      var tasks := [Task("b", [], true)];
      var runner := (t: Task) => Outcome("completed");
      && !FitsBatch(tasks, {"a"}, {})
      && Rounds(tasks, runner, {"a"}, {}) == Progress({"a"}, {}, Finished)
      && "b" !in Rounds(tasks, runner, {"a"}, {}).completed
  {
    var tasks := [Task("b", [], true)];
    assert tasks[0].id == "b";
    assert Ids(tasks) == {"b"};
    assert "a" in {"a"} && "a" !in Ids(tasks);
  }

  /** The ids a run starts with are apart and all of this batch. */
  predicate SetsFit(ids: set<TaskId>, completed: set<TaskId>, failed: set<TaskId>)
  {
    completed <= ids && failed <= ids && completed !! failed
  }

  /** A batch of just these tasks that finishes has settled every one of them. */
  ghost predicate Accounts(ids: set<TaskId>, completed: set<TaskId>, failed: set<TaskId>, tasks: seq<Task>,
                           runner: Runner)
  {
    (UniqueIds(tasks) && Ids(tasks) == ids && Rounds(tasks, runner, completed, failed).ending.Finished?) ==>
      ids <= Rounds(tasks, runner, completed, failed).completed + Rounds(tasks, runner, completed, failed).failed
  }

  ghost predicate AlwaysAccounts(ids: set<TaskId>, completed: set<TaskId>, failed: set<TaskId>)
  {
    forall tasks: seq<Task>, runner: Runner :: Accounts(ids, completed, failed, tasks, runner)
  }

  lemma FittingAccounts(ids: set<TaskId>, completed: set<TaskId>, failed: set<TaskId>, tasks: seq<Task>, runner: Runner)
    requires SetsFit(ids, completed, failed) || ids <= completed + failed
    ensures Accounts(ids, completed, failed, tasks, runner)
  {
    if UniqueIds(tasks) && Ids(tasks) == ids && Rounds(tasks, runner, completed, failed).ending.Finished? {
      RoundsGrow(tasks, runner, completed, failed);
      if !(ids <= completed + failed) {
        NothingLeftReady(tasks, runner, completed, failed);
      }
    }
  }

  predicate NoneTwice(order: seq<TaskId>)
  {
    forall i, j :: 0 <= i < j < |order| ==> order[i] != order[j]
  }

  /** The elements of a set, in some order. */
  lemma {:induction false} Listed(ids: set<TaskId>) returns (order: seq<TaskId>)
    ensures NoneTwice(order) && forall id :: id in order <==> id in ids
  {
    if ids == {} {
      order := [];
    } else {
      var id :| id in ids;
      var rest := Listed(ids - {id});
      order := rest + [id];
    }
  }

  /** All tasks are free to run and come out good, but `last` waits for the unsettled others. */
  function Star(order: seq<TaskId>, others: seq<TaskId>, last: TaskId): seq<Task>
  {
    seq(|order|, i requires 0 <= i < |order| => Task(order[i], if order[i] == last then others else [], true))
  }

  function AllGood(): Runner
  {
    (t: Task) => Outcome("completed")
  }

  /** More ids than the batch accounts for: the counts meet before the last task has run. */
  lemma SurplusSkips(ids: set<TaskId>, completed: set<TaskId>, failed: set<TaskId>, last: TaskId)
    requires !SetsFit(ids, completed, failed) && last in ids && last !in completed && last !in failed
    ensures !AlwaysAccounts(ids, completed, failed)
  {
    var order := Listed(ids);
    var others := Listed(ids - completed - failed - {last});
    var tasks, runner := Star(order, others, last), AllGood();
    StarIds(order, others, last, ids);
    SurplusCounts(ids, completed, failed);
    if |completed| + |failed| < |ids| {
      StarRound(order, others, last, ids, completed, failed);
    }
    assert !Accounts(ids, completed, failed, tasks, runner);
  }

  lemma StarIds(order: seq<TaskId>, others: seq<TaskId>, last: TaskId, ids: set<TaskId>)
    requires NoneTwice(order) && forall id :: id in order <==> id in ids
    ensures UniqueIds(Star(order, others, last)) && Ids(Star(order, others, last)) == ids
  {
    var tasks := Star(order, others, last);
    forall id | id in ids
      ensures id in Ids(tasks)
    {
      var i :| 0 <= i < |order| && order[i] == id;
      assert tasks[i].id == id;
    }
  }

  /** Counted one by one, the sets hold more than the settled tasks of the batch. */
  lemma SurplusCounts(ids: set<TaskId>, completed: set<TaskId>, failed: set<TaskId>)
    requires !SetsFit(ids, completed, failed)
    ensures |completed| + |failed| + |ids - completed - failed| > |ids|
  {
    var open := ids - completed - failed;
    var all := completed + failed + open;
    assert |completed + failed| == |completed| + |failed| - |completed * failed|;
    assert |all| == |completed + failed| + |open|;
    assert all == ids + (all - ids);
    assert |all| == |ids| + |all - ids|;
    if completed !! failed {
      var stray :| stray in completed + failed && stray !in ids;
      assert stray in all - ids;
    } else {
      var both :| both in completed && both in failed;
      assert both in completed * failed;
    }
  }

  lemma StarRound(order: seq<TaskId>, others: seq<TaskId>, last: TaskId, ids: set<TaskId>, completed: set<TaskId>,
                  failed: set<TaskId>)
    requires NoneTwice(order) && forall id :: id in order <==> id in ids
    requires forall id :: id in others <==> id in ids - completed - failed - {last}
    requires last in ids && last !in completed && last !in failed
    requires |completed| + |failed| < |ids| < |completed| + |failed| + |ids - completed - failed|
    ensures
      var p := Rounds(Star(order, others, last), AllGood(), completed, failed);
      p.ending.Finished? && last !in p.completed + p.failed
  {
    var tasks, runner := Star(order, others, last), AllGood();
    var rest := ids - completed - failed - {last};
    StarIds(order, others, last, ids);
    hide Rounds, ReadyTasks, GoodIds, BadIds, Ids, AnyThrows, Star, AllGood, NoneTwice;
    var some := OneOpenLeft(ids, completed, failed, last);
    assert some in others;
    StarReady(order, others, last, ids, completed, failed);
    LastRound(tasks, runner, completed, failed, rest);
  }

  lemma LastRound(tasks: seq<Task>, runner: Runner, completed: set<TaskId>, failed: set<TaskId>, good: set<TaskId>)
    requires |completed| + |failed| < |Ids(tasks)| <= |completed + good| + |failed|
    requires
      var ready := ReadyTasks(tasks, completed, failed);
      ready != [] && !AnyThrows(ready, runner) && GoodIds(ready, runner) == good && BadIds(ready, runner) == {}
    ensures Rounds(tasks, runner, completed, failed) == Progress(completed + good, failed, Finished)
  {
    hide Rounds, ReadyTasks, GoodIds, BadIds, Ids, AnyThrows;
    RoundUnfolds(tasks, runner, completed, failed);
    assert failed + {} == failed;
    AllAccountedFor(tasks, runner, completed + good, failed);
  }

  lemma OneOpenLeft(ids: set<TaskId>, completed: set<TaskId>, failed: set<TaskId>, last: TaskId) returns (some: TaskId)
    requires last in ids && last !in completed && last !in failed
    requires |completed| + |failed| < |ids| < |completed| + |failed| + |ids - completed - failed|
    ensures some in ids - completed - failed - {last}
    ensures |completed + (ids - completed - failed - {last})| + |failed| >= |ids|
  {
    var rest := ids - completed - failed - {last};
    assert ids - completed - failed == rest + {last};
    some :| some in rest;
    assert |completed + rest| == |completed| + |rest|;
  }

  lemma StarReady(order: seq<TaskId>, others: seq<TaskId>, last: TaskId, ids: set<TaskId>, completed: set<TaskId>,
                  failed: set<TaskId>)
    requires NoneTwice(order) && forall id :: id in order <==> id in ids
    requires forall id :: id in others <==> id in ids - completed - failed - {last}
    requires last in ids && last !in completed && last !in failed && others != []
    ensures
      var ready := ReadyTasks(Star(order, others, last), completed, failed);
      && ready != [] && !AnyThrows(ready, AllGood())
      && GoodIds(ready, AllGood()) == ids - completed - failed - {last} && BadIds(ready, AllGood()) == {}
  {
    var tasks := Star(order, others, last);
    var ready := ReadyTasks(tasks, completed, failed);
    var rest := ids - completed - failed - {last};
    assert others[0] in rest;
    forall t | t in ready
      ensures t.id in rest && Good(AllGood(), t)
    {
      var i :| 0 <= i < |tasks| && tasks[i] == t;
      assert t.id == last ==> t.dependencies == others;
      assert others[0] in others && others[0] !in completed;
    }
    forall id | id in rest
      ensures id in GoodIds(ready, AllGood())
    {
      var i :| 0 <= i < |order| && order[i] == id;
      assert tasks[i] in tasks && Ready(tasks[i], completed, failed);
      var k :| 0 <= k < |ready| && ready[k] == tasks[i];
    }
  }

  /** Exactly when a finished run has settled every task, for every batch of these ids and every runner: if
      the sets it starts with fit the batch, or nothing is left to do anyway. */
  lemma AccountsIff(ids: set<TaskId>, completed: set<TaskId>, failed: set<TaskId>)
    ensures AlwaysAccounts(ids, completed, failed) <==> SetsFit(ids, completed, failed) || ids <= completed + failed
  {
    if SetsFit(ids, completed, failed) || ids <= completed + failed {
      forall tasks: seq<Task>, runner: Runner
        ensures Accounts(ids, completed, failed, tasks, runner)
      {
        FittingAccounts(ids, completed, failed, tasks, runner);
      }
    } else {
      var last :| last in ids && last !in completed + failed;
      SurplusSkips(ids, completed, failed, last);
    }
  }
}
