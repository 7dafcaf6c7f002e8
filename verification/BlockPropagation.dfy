/** `RunScheduler.propagateBlock`: marking everything downstream of a failed task.

    The sweep over the graph repeats while it changed a status. That misses nothing reachable through
    tasks still waiting (`LiveTasksAreBlocked`), and is exact if every waiting task downstream is so through
    waiting ones (`PropagateIsExact`); otherwise it can stop early (`SkippedTaskHidesDependents`). Which
    tasks are blocked whatever the statuses is decided by the graph's order (`AlwaysBlockedIff`). */
module BlockPropagation {
  type TaskId = string

  datatype Task = Task(id: TaskId, parallelSafe: bool, dependsOn: seq<TaskId>)

  datatype Status = Pending | ReadyToRun | Running | Completed | Failed | BlockedByUpstream | Skipped

  type Statuses = map<TaskId, Status>

  function GraphIds(graph: seq<Task>): set<TaskId>
  {
    set i | 0 <= i < |graph| :: graph[i].id
  }

  /** The task has a status, and it is one that can still be launched. */
  predicate Waiting(statuses: Statuses, id: TaskId)
  {
    id in statuses && (statuses[id].Pending? || statuses[id].ReadyToRun?)
  }

  // ---- the loop -----------------------------------------------------------------------------

  /** `fail`, `state.tasks` and `changed` in the middle of a sweep. */
  datatype Sweep = Sweep(fail: set<TaskId>, statuses: Statuses, changed: bool)

  predicate DependsOnAny(task: Task, fail: set<TaskId>)
  {
    exists d :: d in task.dependsOn && d in fail
  }

  function Visit(s: Sweep, task: Task): Sweep
  {
    if task.id in s.fail || !DependsOnAny(task, s.fail) then s
    else if Waiting(s.statuses, task.id) then
      Sweep(s.fail + {task.id}, s.statuses[task.id := BlockedByUpstream], true)
    else s.(fail := s.fail + {task.id})
  }

  function Pass(graph: seq<Task>, n: nat, s: Sweep): (r: Sweep)
    requires n <= |graph|
    ensures s.fail <= r.fail <= s.fail + GraphIds(graph)
    ensures r.changed && !s.changed ==> s.fail < r.fail
  {
    if n == 0 then s else Visit(Pass(graph, n - 1, s), graph[n - 1])
  }

  function Propagate(graph: seq<Task>, fail: set<TaskId>, statuses: Statuses): Statuses
    decreases GraphIds(graph) - fail
  {
    var s := Pass(graph, |graph|, Sweep(fail, statuses, false));
    if s.changed then Propagate(graph, s.fail, s.statuses) else s.statuses
  }

  method PropagateBlock(graph: seq<Task>, failedId: TaskId, statuses: Statuses) returns (out: Statuses)
    ensures out == Propagate(graph, {failedId}, statuses)
  {
    var fail := {failedId};
    out := statuses;
    var changed := true;
    while changed
      invariant Propagate(graph, {failedId}, statuses) == if changed then Propagate(graph, fail, out) else out
      decreases GraphIds(graph) - fail, changed
    {
      changed := false;
      ghost var start := Sweep(fail, out, false);
      for i := 0 to |graph|
        invariant Sweep(fail, out, changed) == Pass(graph, i, start)
      {
        var task := graph[i];
        if task.id in fail {
          continue;
        }
        if DependsOnAny(task, fail) {
          fail := fail + {task.id};
          if Waiting(out, task.id) {
            out := out[task.id := BlockedByUpstream];
            changed := true;
          }
        }
      }
    }
  }

  // ---- what should be marked -----------------------------------------------------------------

  /** The task with id `b` names `a` among its dependencies. */
  predicate Edge(graph: seq<Task>, a: TaskId, b: TaskId)
  {
    exists i :: 0 <= i < |graph| && graph[i].id == b && a in graph[i].dependsOn
  }

  predicate Path(graph: seq<Task>, path: seq<TaskId>)
  {
    forall i :: 0 < i < |path| ==> Edge(graph, path[i - 1], path[i])
  }

  /** `path` leads from `a` to `b` along at least one edge. */
  predicate Leads(graph: seq<Task>, path: seq<TaskId>, a: TaskId, b: TaskId)
  {
    |path| >= 2 && path[0] == a && path[|path| - 1] == b && Path(graph, path)
  }

  /** `b` depends on `a`, directly or through other tasks. */
  ghost predicate Downstream(graph: seq<Task>, a: TaskId, b: TaskId)
  {
    exists path :: Leads(graph, path, a, b)
  }

  /** ... and every task on the way is still waiting. */
  ghost predicate LiveDownstream(graph: seq<Task>, statuses: Statuses, a: TaskId, b: TaskId)
  {
    exists path :: Leads(graph, path, a, b) && forall i :: 0 < i < |path| ==> Waiting(statuses, path[i])
  }

  /** `statuses` with the waiting tasks of `hit` blocked. */
  function Marked(statuses: Statuses, hit: set<TaskId>): Statuses
  {
    map id | id in statuses :: if id in hit && Waiting(statuses, id) then BlockedByUpstream else statuses[id]
  }

  // ---- one sweep ----------------------------------------------------------------------------

  /** A sweep in progress has marked exactly the waiting tasks it reached. */
  lemma {:induction false} PassMarks(graph: seq<Task>, n: nat, s: Sweep, origin: Statuses, root: TaskId)
    requires n <= |graph| && root in s.fail && s.statuses == Marked(origin, s.fail - {root})
    ensures Pass(graph, n, s).statuses == Marked(origin, Pass(graph, n, s).fail - {root})
  {
    if n > 0 {
      PassMarks(graph, n - 1, s, origin, root);
      var before, task := Pass(graph, n - 1, s), graph[n - 1];
      hide Pass;
      assert Visit(before, task).statuses == Marked(origin, Visit(before, task).fail - {root});
    }
  }

  lemma {:induction false} PassReachesDownstream(graph: seq<Task>, n: nat, s: Sweep, root: TaskId)
    requires n <= |graph| && forall id :: id in s.fail ==> id == root || Downstream(graph, root, id)
    ensures forall id :: id in Pass(graph, n, s).fail ==> id == root || Downstream(graph, root, id)
  {
    if n > 0 {
      PassReachesDownstream(graph, n - 1, s, root);
      var before, task := Pass(graph, n - 1, s), graph[n - 1];
      hide Pass;
      if task.id !in before.fail && DependsOnAny(task, before.fail) {
        var d :| d in task.dependsOn && d in before.fail;
        assert Edge(graph, d, task.id);
        OneMoreEdge(graph, root, d, task.id);
      }
    }
  }

  lemma OneMoreEdge(graph: seq<Task>, a: TaskId, b: TaskId, c: TaskId)
    requires (b == a || Downstream(graph, a, b)) && Edge(graph, b, c)
    ensures Downstream(graph, a, c)
  {
    if b == a {
      assert Leads(graph, [a, c], a, c);
    } else {
      var path :| Leads(graph, path, a, b);
      assert Leads(graph, path + [c], a, c);
    }
  }

  /** A full sweep takes in every direct dependent of what it started with. */
  lemma {:induction false} PassTakesDependents(graph: seq<Task>, n: nat, s: Sweep, i: nat)
    requires i < n <= |graph| && DependsOnAny(graph[i], s.fail)
    ensures graph[i].id in Pass(graph, n, s).fail
  {
    if i == n - 1 {
      var before := Pass(graph, n - 1, s);
      var d :| d in graph[i].dependsOn && d in s.fail;
      assert d in before.fail;
    } else {
      PassTakesDependents(graph, n - 1, s, i);
    }
  }

  lemma {:induction false} ChangedStays(graph: seq<Task>, n: nat, s: Sweep)
    requires n <= |graph| && s.changed
    ensures Pass(graph, n, s).changed
  {
    if n > 0 {
      ChangedStays(graph, n - 1, s);
    }
  }

  /** A sweep that changed no status took in only tasks that were not waiting. */
  lemma {:induction false} QuietPass(graph: seq<Task>, n: nat, s: Sweep)
    requires n <= |graph| && !Pass(graph, n, s).changed
    ensures Pass(graph, n, s).statuses == s.statuses
    ensures forall id :: id in Pass(graph, n, s).fail && id !in s.fail ==> !Waiting(s.statuses, id)
  {
    if n > 0 {
      QuietPass(graph, n - 1, s);
    }
  }

  // ---- the whole loop ------------------------------------------------------------------------

  /** The set of tasks the loop has taken in when it stops. */
  function Reached(graph: seq<Task>, fail: set<TaskId>, statuses: Statuses): set<TaskId>
    decreases GraphIds(graph) - fail
  {
    var s := Pass(graph, |graph|, Sweep(fail, statuses, false));
    if s.changed then Reached(graph, s.fail, s.statuses) else s.fail
  }

  lemma {:induction false} PropagateMarks(graph: seq<Task>, fail: set<TaskId>, statuses: Statuses, origin: Statuses,
                                          root: TaskId)
    requires root in fail && statuses == Marked(origin, fail - {root})
    requires forall id :: id in fail ==> id == root || Downstream(graph, root, id)
    ensures Propagate(graph, fail, statuses) == Marked(origin, Reached(graph, fail, statuses) - {root})
    ensures forall id :: id in Reached(graph, fail, statuses) ==> id == root || Downstream(graph, root, id)
    decreases GraphIds(graph) - fail
  {
    var start := Sweep(fail, statuses, false);
    var s := Pass(graph, |graph|, start);
    PassMarks(graph, |graph|, start, origin, root);
    PassReachesDownstream(graph, |graph|, start, root);
    if s.changed {
      hide Marked, Downstream;
      PropagateMarks(graph, s.fail, s.statuses, origin, root);
    }
  }

  /** Where the loop stops, a waiting task with a dependency taken in while waiting, or failed, is in. */
  lemma {:induction false} ReachedIsClosed(graph: seq<Task>, fail: set<TaskId>, statuses: Statuses,
                                           origin: Statuses, root: TaskId, a: TaskId, b: TaskId)
    requires root in fail && statuses == Marked(origin, fail - {root})
    requires Edge(graph, a, b) && a in Reached(graph, fail, statuses) && (a == root || Waiting(origin, a))
    ensures b in Reached(graph, fail, statuses)
    decreases GraphIds(graph) - fail
  {
    var start := Sweep(fail, statuses, false);
    var s := Pass(graph, |graph|, start);
    PassMarks(graph, |graph|, start, origin, root);
    if s.changed {
      hide Marked, Edge;
      ReachedIsClosed(graph, s.fail, s.statuses, origin, root, a, b);
    } else {
      QuietPass(graph, |graph|, start);
      assert a !in fail ==> (Waiting(statuses, a) <==> Waiting(origin, a));
      assert a in fail;
      var i :| 0 <= i < |graph| && graph[i].id == b && a in graph[i].dependsOn;
      PassTakesDependents(graph, |graph|, start, i);
    }
  }

  lemma {:induction false} RootIsReached(graph: seq<Task>, fail: set<TaskId>, statuses: Statuses)
    ensures fail <= Reached(graph, fail, statuses)
    decreases GraphIds(graph) - fail
  {
    var s := Pass(graph, |graph|, Sweep(fail, statuses, false));
    if s.changed {
      RootIsReached(graph, s.fail, s.statuses);
    }
  }

  lemma {:induction false} LivePathIsReached(graph: seq<Task>, statuses: Statuses, root: TaskId, path: seq<TaskId>,
                                             i: nat)
    requires 0 <= i < |path| && path[0] == root && Path(graph, path)
    requires forall k :: 0 < k < |path| ==> Waiting(statuses, path[k])
    ensures path[i] in Reached(graph, {root}, statuses)
  {
    if i == 0 {
      RootIsReached(graph, {root}, statuses);
    } else {
      LivePathIsReached(graph, statuses, root, path, i - 1);
      NothingMarked(statuses, root);
      assert Edge(graph, path[i - 1], path[i]);
      ReachedIsClosed(graph, {root}, statuses, statuses, root, path[i - 1], path[i]);
    }
  }

  lemma NothingMarked(statuses: Statuses, root: TaskId)
    ensures statuses == Marked(statuses, {root} - {root})
  {
  }

  /** On every graph, in every order of its tasks: only waiting tasks downstream of the failed one change,
      they become blocked, and those reachable through waiting tasks all do. */
  lemma LiveTasksAreBlocked(graph: seq<Task>, failedId: TaskId, statuses: Statuses)
    ensures
      var out := Propagate(graph, {failedId}, statuses);
      && out.Keys == statuses.Keys
      && (forall id :: id in statuses && out[id] != statuses[id] ==>
            && (statuses[id] == Pending || statuses[id] == ReadyToRun) && out[id] == BlockedByUpstream
            && id != failedId && Downstream(graph, failedId, id))
      && (forall id :: id != failedId && LiveDownstream(graph, statuses, failedId, id) ==> out[id].BlockedByUpstream?)
  {
    NothingMarked(statuses, failedId);
    PropagateMarks(graph, {failedId}, statuses, statuses, failedId);
    var out := Propagate(graph, {failedId}, statuses);
    forall id | id != failedId && LiveDownstream(graph, statuses, failedId, id)
      ensures id in out && out[id].BlockedByUpstream?
    {
      var path :| Leads(graph, path, failedId, id) && forall i :: 0 < i < |path| ==> Waiting(statuses, path[i]);
      LivePathIsReached(graph, statuses, failedId, path, |path| - 1);
    }
  }

  /** No task is left waiting on the failed one, or on one that was blocked because of it. */
  lemma NothingWaitsOnBlocked(graph: seq<Task>, failedId: TaskId, statuses: Statuses)
    ensures
      var out := Propagate(graph, {failedId}, statuses);
      && out.Keys == statuses.Keys
      && forall a, b :: Edge(graph, a, b) && b != failedId && (a == failedId || (a in out && out[a] != statuses[a])) ==>
           b in out ==> out[b] != Pending && out[b] != ReadyToRun
  {
    NothingMarked(statuses, failedId);
    PropagateMarks(graph, {failedId}, statuses, statuses, failedId);
    RootIsReached(graph, {failedId}, statuses);
    var out := Propagate(graph, {failedId}, statuses);
    hide Propagate, Reached, Edge, Downstream;
    forall a, b | Edge(graph, a, b) && b != failedId && (a == failedId || (a in out && out[a] != statuses[a]))
      ensures !Waiting(out, b)
    {
      ReachedIsClosed(graph, {failedId}, statuses, statuses, failedId, a, b);
    }
  }

  // ---- when it is exact ----------------------------------------------------------------------

  /** Every waiting task downstream of the failed one is so through waiting tasks. */
  ghost predicate WaitersAreLive(graph: seq<Task>, failedId: TaskId, statuses: Statuses)
  {
    forall b :: b != failedId && Waiting(statuses, b) && Downstream(graph, failedId, b) ==>
      LiveDownstream(graph, statuses, failedId, b)
  }

  /** No task waits on a blocked one, and everything downstream of `failedId` is waiting or blocked. */
  ghost predicate BlockedIsClosed(graph: seq<Task>, failedId: TaskId, statuses: Statuses)
  {
    && (forall a, b :: Edge(graph, a, b) && a in statuses && statuses[a].BlockedByUpstream? && b != failedId ==>
          b in statuses && statuses[b].BlockedByUpstream?)
    && (forall b :: b != failedId && Downstream(graph, failedId, b) ==>
          Waiting(statuses, b) || (b in statuses && statuses[b].BlockedByUpstream?))
  }

  /** Along a path from the failed task to a waiting one, every task in between is waiting. */
  lemma {:induction false} PathIsLive(graph: seq<Task>, failedId: TaskId, statuses: Statuses, path: seq<TaskId>)
    requires BlockedIsClosed(graph, failedId, statuses)
    requires |path| >= 2 && Leads(graph, path, failedId, path[|path| - 1])
    requires path[|path| - 1] != failedId && Waiting(statuses, path[|path| - 1])
    ensures LiveDownstream(graph, statuses, failedId, path[|path| - 1])
  {
    var last, shorter := path[|path| - 1], path[..|path| - 1];
    var previous := shorter[|shorter| - 1];
    assert Edge(graph, previous, last);
    if previous == failedId {
      assert Leads(graph, [failedId, last], failedId, last);
    } else {
      assert Leads(graph, shorter, failedId, previous);
      PathIsLive(graph, failedId, statuses, shorter);
      var live :| Leads(graph, live, failedId, previous) && forall i :: 0 < i < |live| ==> Waiting(statuses, live[i]);
      assert Leads(graph, live + [last], failedId, last);
    }
  }

  /** A closed blocked set is enough for that. */
  lemma ClosedIsLive(graph: seq<Task>, failedId: TaskId, statuses: Statuses)
    requires BlockedIsClosed(graph, failedId, statuses)
    ensures WaitersAreLive(graph, failedId, statuses)
  {
    forall b | b != failedId && Waiting(statuses, b) && Downstream(graph, failedId, b)
      ensures LiveDownstream(graph, statuses, failedId, b)
    {
      var path :| Leads(graph, path, failedId, b);
      PathIsLive(graph, failedId, statuses, path);
    }
  }

  /** If the waiting tasks downstream of the failed one are so through waiting ones, exactly they become
      blocked, cycles included; and if the blocked set was closed, it is closed again. */
  lemma PropagateIsExact(graph: seq<Task>, failedId: TaskId, statuses: Statuses)
    requires WaitersAreLive(graph, failedId, statuses)
    ensures
      var out := Propagate(graph, {failedId}, statuses);
      && out.Keys == statuses.Keys
      && (forall id :: id in statuses ==>
            var waits := statuses[id] == Pending || statuses[id] == ReadyToRun;
            out[id] == if id != failedId && waits && Downstream(graph, failedId, id)
                       then BlockedByUpstream else statuses[id])
      && (BlockedIsClosed(graph, failedId, statuses) ==>
            forall a, b ::
              (Edge(graph, a, b) && b != failedId && (a == failedId || (a in out && out[a].BlockedByUpstream?)))
              ==> b in out && out[b].BlockedByUpstream?)
  {
    LiveTasksAreBlocked(graph, failedId, statuses);
    var out := Propagate(graph, {failedId}, statuses);
    hide Propagate, LiveDownstream;
    if BlockedIsClosed(graph, failedId, statuses) {
      forall a, b | Edge(graph, a, b) && b != failedId && (a == failedId || (a in out && out[a].BlockedByUpstream?))
        ensures b in out && out[b].BlockedByUpstream?
      {
        if a == failedId || out[a] != statuses[a] {
          OneMoreEdge(graph, failedId, a, b);
        }
      }
    }
  }

  // ---- when it is exact whatever the statuses --------------------------------------------------

  /** The tasks the first sweep takes in; their statuses play no part in it. */
  function FirstSweep(graph: seq<Task>, failedId: TaskId): set<TaskId>
  {
    Pass(graph, |graph|, Sweep({failedId}, map[], false)).fail
  }

  lemma {:induction false} SweepIgnoresStatuses(graph: seq<Task>, n: nat, s: Sweep, s': Sweep)
    requires n <= |graph| && s.fail == s'.fail
    ensures Pass(graph, n, s).fail == Pass(graph, n, s').fail
  {
    if n > 0 {
      SweepIgnoresStatuses(graph, n - 1, s, s');
    }
  }

  /** Positions in the graph, one after the other, each depending on the one before, the first on `from`. */
  predicate Ascends(graph: seq<Task>, n: nat, from: TaskId, path: seq<int>, to: TaskId)
    requires n <= |graph|
  {
    && path != [] && (forall i :: 0 <= i < |path| ==> 0 <= path[i] < n)
    && (forall i, j :: 0 <= i < j < |path| ==> path[i] < path[j])
    && (forall i :: 0 < i < |path| ==> graph[path[i - 1]].id in graph[path[i]].dependsOn)
    && from in graph[path[0]].dependsOn && graph[path[|path| - 1]].id == to
  }

  ghost predicate InGraphOrder(graph: seq<Task>, n: nat, from: TaskId, to: TaskId)
    requires n <= |graph|
  {
    exists path :: Ascends(graph, n, from, path, to)
  }

  lemma {:induction false} SweptAscends(graph: seq<Task>, n: nat, failedId: TaskId, id: TaskId)
    requires n <= |graph| && id in Pass(graph, n, Sweep({failedId}, map[], false)).fail && id != failedId
    ensures InGraphOrder(graph, n, failedId, id)
  {
    if n > 0 {
      var before, task := Pass(graph, n - 1, Sweep({failedId}, map[], false)), graph[n - 1];
      if id in before.fail {
        SweptAscends(graph, n - 1, failedId, id);
        var path :| Ascends(graph, n - 1, failedId, path, id);
        assert Ascends(graph, n, failedId, path, id);
      } else {
        var d :| d in task.dependsOn && d in before.fail;
        if d == failedId {
          assert Ascends(graph, n, failedId, [n - 1], id);
        } else {
          SweptAscends(graph, n - 1, failedId, d);
          var path :| Ascends(graph, n - 1, failedId, path, d);
          assert Ascends(graph, n, failedId, path + [n - 1], id);
        }
      }
    }
  }

  lemma {:induction false} AscendingIsSwept(graph: seq<Task>, n: nat, failedId: TaskId, path: seq<int>, id: TaskId)
    requires n <= |graph| && Ascends(graph, n, failedId, path, id)
    ensures id in Pass(graph, n, Sweep({failedId}, map[], false)).fail
    decreases n
  {
    var last := path[|path| - 1];
    if last < n - 1 {
      assert Ascends(graph, n - 1, failedId, path, id);
      AscendingIsSwept(graph, n - 1, failedId, path, id);
    } else if |path| == 1 {
      assert failedId in Pass(graph, n - 1, Sweep({failedId}, map[], false)).fail;
      assert DependsOnAny(graph[last], Pass(graph, n - 1, Sweep({failedId}, map[], false)).fail);
    } else {
      var shorter := path[..|path| - 1];
      var d := graph[shorter[|shorter| - 1]].id;
      assert Ascends(graph, n - 1, failedId, shorter, d);
      AscendingIsSwept(graph, n - 1, failedId, shorter, d);
      assert DependsOnAny(graph[last], Pass(graph, n - 1, Sweep({failedId}, map[], false)).fail);
    }
  }

  /** `id` becomes blocked under every status map in which it waits. */
  ghost predicate AlwaysBlocked(graph: seq<Task>, failedId: TaskId, id: TaskId)
  {
    forall statuses :: Waiting(statuses, id) ==>
      id in Propagate(graph, {failedId}, statuses) && Propagate(graph, {failedId}, statuses)[id] == BlockedByUpstream
  }

  lemma SweptIsBlocked(graph: seq<Task>, failedId: TaskId, statuses: Statuses, id: TaskId)
    requires id != failedId && id in FirstSweep(graph, failedId) && Waiting(statuses, id)
    ensures id in Propagate(graph, {failedId}, statuses)
    ensures Propagate(graph, {failedId}, statuses)[id] == BlockedByUpstream
  {
    var start := Sweep({failedId}, statuses, false);
    SweepIgnoresStatuses(graph, |graph|, start, Sweep({failedId}, map[], false));
    NothingMarked(statuses, failedId);
    PropagateMarks(graph, {failedId}, statuses, statuses, failedId);
    SweptIsReached(graph, {failedId}, statuses);
    assert id in Reached(graph, {failedId}, statuses);
  }

  lemma SweptIsReached(graph: seq<Task>, fail: set<TaskId>, statuses: Statuses)
    ensures Pass(graph, |graph|, Sweep(fail, statuses, false)).fail <= Reached(graph, fail, statuses)
  {
    var s := Pass(graph, |graph|, Sweep(fail, statuses, false));
    if s.changed {
      RootIsReached(graph, s.fail, s.statuses);
    }
  }

  /** Only the task itself waits, the others were skipped. */
  function Alone(graph: seq<Task>, id: TaskId): Statuses
  {
    map x | x in GraphIds(graph) + {id} :: if x == id then Pending else Skipped
  }

  lemma {:induction false} OthersDoNotChange(graph: seq<Task>, n: nat, s: Sweep, id: TaskId)
    requires n <= |graph| && s.statuses == Alone(graph, id) && !s.changed && id !in Pass(graph, n, s).fail
    ensures !Pass(graph, n, s).changed && Pass(graph, n, s).statuses == s.statuses
  {
    if n > 0 {
      OthersDoNotChange(graph, n - 1, s, id);
      assert graph[n - 1].id in GraphIds(graph);
    }
  }

  lemma UnsweptStaysAlone(graph: seq<Task>, failedId: TaskId, id: TaskId)
    requires id !in FirstSweep(graph, failedId)
    ensures Waiting(Alone(graph, id), id) && Propagate(graph, {failedId}, Alone(graph, id)) == Alone(graph, id)
  {
    var start := Sweep({failedId}, Alone(graph, id), false);
    SweepIgnoresStatuses(graph, |graph|, start, Sweep({failedId}, map[], false));
    OthersDoNotChange(graph, |graph|, start, id);
  }

  /** Whether a task is blocked whenever it waits can be read off the graph before the call: exactly if the
      first sweep takes it in, that is, if it can be reached from the failed task in graph order. For any
      other task there are statuses under which the loop stops before it gets there. */
  lemma AlwaysBlockedIff(graph: seq<Task>, failedId: TaskId, id: TaskId)
    requires id != failedId
    ensures AlwaysBlocked(graph, failedId, id) <==> id in FirstSweep(graph, failedId)
    ensures id in FirstSweep(graph, failedId) <==> InGraphOrder(graph, |graph|, failedId, id)
  {
    if id in FirstSweep(graph, failedId) {
      forall statuses | Waiting(statuses, id)
        ensures id in Propagate(graph, {failedId}, statuses)
        ensures Propagate(graph, {failedId}, statuses)[id] == BlockedByUpstream
      {
        SweptIsBlocked(graph, failedId, statuses, id);
      }
      SweptAscends(graph, |graph|, failedId, id);
    } else {
      UnsweptStaysAlone(graph, failedId, id);
    }
    if path :| Ascends(graph, |graph|, failedId, path, id) {
      AscendingIsSwept(graph, |graph|, failedId, path, id);
    }
  }

  /** Without a closed blocked set the loop can stop early: here "c" is downstream of the failed "a" and
      still waiting, but the skipped "b" between them causes no further sweep. */
  lemma SkippedTaskHidesDependents()
    ensures
      var graph := [Task("c", true, ["b"]), Task("b", true, ["a"])];
      var statuses := map["a" := Failed, "b" := Skipped, "c" := Pending];
      && Downstream(graph, "a", "c")
      && Propagate(graph, {"a"}, statuses) == statuses
      && !WaitersAreLive(graph, "a", statuses)
  {
    var graph := [Task("c", true, ["b"]), Task("b", true, ["a"])];
    var statuses := map["a" := Failed, "b" := Skipped, "c" := Pending];
    var start := Sweep({"a"}, statuses, false);
    assert graph[0].id == "c" && "b" in graph[0].dependsOn && graph[1].id == "b" && "a" in graph[1].dependsOn;
    assert Edge(graph, "a", "b") && Edge(graph, "b", "c");
    assert Leads(graph, ["a", "b", "c"], "a", "c") && Leads(graph, ["a", "b"], "a", "b");
    assert Pass(graph, 0, start) == start;
    assert Pass(graph, 1, start) == Visit(start, graph[0]) == start;
    assert Pass(graph, 2, start) == Visit(start, graph[1]) == Sweep({"a", "b"}, statuses, false);
    if WaitersAreLive(graph, "a", statuses) {
      PropagateIsExact(graph, "a", statuses);
    }
  }
}
