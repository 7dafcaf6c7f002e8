/** What the supervisor's watch comes to over every run: it watches exactly the running dispatches that
    began since it listens, and reports each at most once and never early. */
module SupervisorRuns {
  import opened CompanyDispatch
  import opened CompanyRuns

  predicate RunningAt(s: State, role: Role, path: Path)
  {
    role in s.dispatching && s.dispatching[role].running && s.dispatching[role].task.path == path
  }

  /** The entry of `path` was made for the dispatch that runs on it. */
  ghost predicate EntryOk(s: State, path: Path)
    requires path in s.pending
  {
    var info := s.pending[path];
    && RunningAt(s, info.role, path) && s.dispatching[info.role].nr == info.nr
    && info.nr < |s.begun| && s.begun[info.nr].at == info.startedAt
  }

  ghost predicate PendingOk(s: State)
  {
    && (s.watching.NotYet? ==> s.pending == map[])
    && (forall path :: path in s.pending ==> EntryOk(s, path))
    && (s.watching.Since? ==> forall role :: role in s.dispatching && s.dispatching[role].running ==>
          s.dispatching[role].nr >= s.watching.nr ==> s.dispatching[role].task.path in s.pending)
  }

  /** Different roles work on different files, and not on one that is queued. */
  ghost predicate ActiveApart(s: State)
  {
    && (forall r, r' :: r in s.dispatching && r' in s.dispatching && r != r' ==>
          s.dispatching[r].task.path != s.dispatching[r'].task.path)
    && (forall r, r', i :: r in s.dispatching && 0 <= i < |At(s.queues, r')| ==>
          At(s.queues, r')[i].path != s.dispatching[r].task.path)
  }

  ghost predicate Numbered(s: State)
  {
    forall role :: role in s.dispatching ==>
      s.dispatching[role].nr < |s.begun| && s.begun[s.dispatching[role].nr].task == s.dispatching[role].task
  }

  lemma PathsKeepApart(s: State)
    requires PathsOk(s)
    ensures ActiveApart(s)
  {
    forall r, r' | r in s.dispatching && r' in s.dispatching && r != r'
      ensures s.dispatching[r].task.path != s.dispatching[r'].task.path
    {
      assert InLine(s, r, 0, s.dispatching[r].task.path) && InLine(s, r', 0, s.dispatching[r'].task.path);
    }
    forall r, r', i | r in s.dispatching && 0 <= i < |At(s.queues, r')|
      ensures At(s.queues, r')[i].path != s.dispatching[r].task.path
    {
      assert InLine(s, r, 0, s.dispatching[r].task.path);
      var k := |Active(s, r')| + i;
      assert Line(s, r')[k] == At(s.queues, r')[i];
      assert InLine(s, r', k, At(s.queues, r')[i].path);
    }
  }

  // ---- pending is what runs ---------------------------------------------------------------------

  /** A dispatch of `task` begins; the supervisor is told if it listens and a runner really runs. */
  predicate BeginsWatched(s: State, s': State, role: Role, task: Task, runs: bool)
  {
    && role !in s.dispatching
    && s'.begun == s.begun + [Begun(task, s.clock)] && s'.watching == s.watching
    && s'.dispatching == s.dispatching[role := Dispatch(task, |s.begun|, runs)]
    && s'.pending == if s.watching.NotYet? then s.pending
                     else if runs then s.pending[task.path := Info(role, s.clock, false, |s.begun|)]
                     else s.pending - {task.path}
  }

  predicate NewPath(s: State, path: Path)
  {
    forall r :: r in s.dispatching ==> s.dispatching[r].task.path != path
  }

  lemma ProcessNextBeginsWatched(s: State, role: Role, runner: Runner)
    requires ActiveApart(s)
    ensures
      var s' := ProcessNext(s, role, runner);
      s' == s || exists task :: BeginsWatched(s, s', role, task, runner.RealRunner?) && NewPath(s, task.path)
  {
    var s' := ProcessNext(s, role, runner);
    if s' != s {
      var task := At(s.queues, role)[0];
      assert BeginsWatched(s, s', role, task, runner.RealRunner?) && NewPath(s, task.path);
    }
  }

  lemma BeginKeepsPending(s: State, s': State, role: Role, task: Task, runs: bool)
    requires PendingOk(s) && BeginsWatched(s, s', role, task, runs)
    requires NewPath(s, task.path)
    ensures PendingOk(s')
  {
    assert task.path !in s.pending;
    forall path | path in s'.pending
      ensures EntryOk(s', path)
    {
      assert path == task.path || EntryOk(s, path);
    }
  }

  lemma ProcessNextKeepsPending(s: State, role: Role, runner: Runner)
    requires PendingOk(s) && ActiveApart(s)
    ensures PendingOk(ProcessNext(s, role, runner))
  {
    var s' := ProcessNext(s, role, runner);
    ProcessNextBeginsWatched(s, role, runner);
    hide ProcessNext, PendingOk, ActiveApart, BeginsWatched;
    if s' != s {
      var task :| BeginsWatched(s, s', role, task, runner.RealRunner?) && NewPath(s, task.path);
      BeginKeepsPending(s, s', role, task, runner.RealRunner?);
    }
  }

  /** The dispatch of `role` no longer runs, and nothing is pending for its path. */
  predicate Stops(s: State, s': State, role: Role)
  {
    && role in s.dispatching && s'.begun == s.begun && s'.watching == s.watching
    && s'.pending == s.pending - {s.dispatching[role].task.path}
    && (role in s'.dispatching ==> !s'.dispatching[role].running)
    && (forall r :: r in s'.dispatching ==> r in s.dispatching)
    && (forall r :: r in s.dispatching && r != role ==> r in s'.dispatching && s'.dispatching[r] == s.dispatching[r])
  }

  lemma StopKeepsPending(s: State, s': State, role: Role)
    requires PendingOk(s) && Stops(s, s', role)
    requires forall r :: r in s.dispatching && r != role ==> s.dispatching[r].task.path != s.dispatching[role].task.path
    ensures PendingOk(s')
  {
    forall p | p in s'.pending
      ensures EntryOk(s', p)
    {
      assert EntryOk(s, p);
    }
  }

  lemma FreeKeepsPending(s: State, role: Role, failed: bool)
    requires PendingOk(s) && ActiveApart(s) && role in s.dispatching && (s.dispatching[role].running ==> failed)
    ensures PendingOk(Free(s, role, failed))
  {
    var path := s.dispatching[role].task.path;
    assert path in s.pending ==> EntryOk(s, path) && s.dispatching[role].running;
    assert s.watching.NotYet? ==> s.pending == map[];
    hide Free, Stops, PendingOk;
    FreeStops(s, role, failed);
    StopKeepsPending(s, Free(s, role, failed), role);
  }

  lemma FreeStops(s: State, role: Role, failed: bool)
    requires role in s.dispatching
    requires s.watching.NotYet? ==> s.pending == map[]
    requires failed || s.dispatching[role].task.path !in s.pending
    ensures Stops(s, Free(s, role, failed), role)
  {
    hide At;
  }

  lemma AnswerStops(s: State, role: Role)
    requires role in s.dispatching && s.dispatching[role].running
    requires s.watching.NotYet? ==> s.pending == map[]
    ensures Stops(s, AnsweredStep(s, role), role)
  {
    var s' := AnsweredStep(s, role);
    AnswerKeepsHistory(s, role);
    assert s'.dispatching == s.dispatching[role := s.dispatching[role].(running := false)];
    assert s'.pending == s.pending - {s.dispatching[role].task.path} && s'.watching == s.watching;
    hide AnsweredStep;
  }

  lemma AnsweredKeepsPending(s: State, role: Role)
    requires PendingOk(s) && ActiveApart(s)
    ensures PendingOk(AnsweredStep(s, role))
  {
    var s' := AnsweredStep(s, role);
    if role in s.dispatching && s.dispatching[role].running {
      AnswerStops(s, role);
      hide AnsweredStep, PendingOk, Stops;
      StopKeepsPending(s, s', role);
    }
  }

  lemma NextKeepsPending(slas: Slas, s: State, step: Step)
    requires RuntimeInv(s) && PendingOk(s)
    ensures PendingOk(Next(slas, s, step))
  {
    hide PathsOk, LinesOk, BegunOk, WokenOk, PendingOk, ActiveApart, ProcessNext, Accept, Free, AnsweredStep;
    PathsKeepApart(s);
    if Accepts(s, step) {
      AcceptKeepsPaths(s, step.task);
      PathsKeepApart(Accept(s, step.task));
      AcceptKeepsPending(s, step.task);
      ProcessNextKeepsPending(Accept(s, step.task), step.task.role, step.runner);
    } else if Finishes(s, step) {
      FreeKeepsPending(s, step.role, step.failed);
      FreeKeepsPaths(s, step.role, step.failed);
      PathsKeepApart(Free(s, step.role, step.failed));
      ProcessNextKeepsPending(Free(s, step.role, step.failed), step.role, step.next);
    } else if step.Answered? {
      AnsweredKeepsPending(s, step.role);
    } else {
      hide Next;
      OthersKeepPending(slas, s, step);
    }
  }

  lemma AcceptKeepsPending(s: State, task: Task)
    requires PendingOk(s)
    ensures PendingOk(Accept(s, task))
  {
    forall path | path in s.pending
      ensures EntryOk(Accept(s, task), path)
    {
      assert EntryOk(s, path);
    }
  }

  lemma AcceptKeepsPaths(s: State, task: Task)
    requires PathsOk(s) && task.path !in s.inFlightPaths
    ensures PathsOk(Accept(s, task))
  {
    AcceptMovesLine(s, task);
    hide PathsOk, Line;
    PathsAppend(s, Accept(s, task), task);
  }

  lemma FreeKeepsPaths(s: State, role: Role, failed: bool)
    requires PathsOk(s) && role in s.dispatching
    ensures PathsOk(Free(s, role, failed))
  {
    FreeMovesLine(s, role, failed);
    assert Line(s, role) != [] && Line(s, role)[0] == s.dispatching[role].task;
    hide PathsOk, Line;
    PathsDrop(s, Free(s, role, failed), role);
  }

  lemma OthersKeepPending(slas: Slas, s: State, step: Step)
    requires BegunOk(s) && PendingOk(s) && !Accepts(s, step) && !Finishes(s, step) && !step.Answered?
    ensures PendingOk(Next(slas, s, step))
  {
    hide BegunFor, ProcessNext, Overdue;
  }

  // ---- alerts -----------------------------------------------------------------------------------

  predicate Reported(s: State, nr: nat)
  {
    exists k :: 0 <= k < |s.alerts| && s.alerts[k].nr == nr
  }

  /** The dispatch `nr` had been running for longer than its limit at the time of the alert. */
  predicate Late(slas: Slas, s: State, alert: Alert)
  {
    && alert.nr < |s.begun| && alert.now <= s.clock
    && PastLimit(slas, s.begun[alert.nr].task.role, alert.now - s.begun[alert.nr].at)
  }

  ghost predicate AlertsOk(slas: Slas, s: State)
  {
    && (forall tick :: tick in s.ticks ==> s.ticks[tick] <= s.clock)
    && (forall k :: 0 <= k < |s.alerts| ==> Late(slas, s, s.alerts[k]))
    && (forall j, k :: 0 <= j < k < |s.alerts| ==> s.alerts[j].nr != s.alerts[k].nr)
    && (forall path :: path in s.pending ==> (s.pending[path].alerted <==> Reported(s, s.pending[path].nr)))
  }

  lemma VisitKeepsAlerts(slas: Slas, s: State, tick: nat, path: Path)
    requires RuntimeInv(s) && PendingOk(s) && AlertsOk(slas, s)
    ensures AlertsOk(slas, VisitStep(slas, s, tick, path))
  {
    var s' := VisitStep(slas, s, tick, path);
    if s' != s {
      var info := s.pending[path];
      assert EntryOk(s, path);
      assert Late(slas, s, Alert(info.nr, s.ticks[tick])) by {
        EntryRole(s, path);
        OverdueMeans(slas, info, s.ticks[tick]);
      }
      forall p | p in s'.pending
        ensures s'.pending[p].alerted <==> Reported(s', s'.pending[p].nr)
      {
        if p != path {
          EntriesDiffer(s, p, path);
        }
        ReportedAfter(s, s', Alert(info.nr, s.ticks[tick]), s'.pending[p].nr);
      }
      assert forall tick :: tick in s'.ticks ==> s'.ticks[tick] <= s'.clock;
      hide RuntimeInv, PendingOk;
    }
  }

  lemma ReportedAfter(s: State, s': State, alert: Alert, nr: nat)
    requires s'.alerts == s.alerts + [alert]
    ensures Reported(s', nr) <==> Reported(s, nr) || nr == alert.nr
  {
    if Reported(s, nr) {
      var k :| 0 <= k < |s.alerts| && s.alerts[k].nr == nr;
      assert s'.alerts[k].nr == nr;
    }
    assert s'.alerts[|s.alerts|] == alert;
  }

  lemma EntryRole(s: State, path: Path)
    requires RuntimeInv(s) && path in s.pending && EntryOk(s, path)
    ensures s.begun[s.pending[path].nr].task.role == s.pending[path].role
  {
    var role := s.pending[path].role;
    assert Line(s, role)[0] == s.dispatching[role].task;
  }

  lemma EntriesDiffer(s: State, p: Path, q: Path)
    requires BegunOk(s) && p in s.pending && q in s.pending && p != q && EntryOk(s, p) && EntryOk(s, q)
    ensures s.pending[p].nr != s.pending[q].nr
  {
    hide BegunFor;
  }

  // ---- the other steps --------------------------------------------------------------------------

  /** Nothing is reported, and a pending entry is an old one or a new one of a fresh dispatch. */
  predicate ReportsNothing(s: State, s': State)
  {
    && s'.alerts == s.alerts && s'.clock >= s.clock && s.begun <= s'.begun
    && (forall tick :: tick in s'.ticks ==>
        (tick in s.ticks && s'.ticks[tick] == s.ticks[tick]) || s'.ticks[tick] <= s'.clock)
    && (forall p :: p in s'.pending ==>
          || (p in s.pending && s'.pending[p] == s.pending[p])
          || (!s'.pending[p].alerted && s'.pending[p].nr >= |s.begun|))
  }

  lemma ProcessNextReportsNothing(s: State, role: Role, runner: Runner)
    ensures ReportsNothing(s, ProcessNext(s, role, runner))
  {
  }

  lemma AcceptReportsNothing(s: State, task: Task)
    ensures ReportsNothing(s, Accept(s, task))
  {
    hide At;
  }

  lemma FreeReportsNothing(s: State, role: Role, failed: bool)
    requires role in s.dispatching
    ensures ReportsNothing(s, Free(s, role, failed))
  {
    hide At;
  }

  lemma NothingTwice(s: State, s': State, s'': State)
    requires ReportsNothing(s, s') && ReportsNothing(s', s'')
    ensures ReportsNothing(s, s'')
  {
  }

  lemma NextReportsNothing(slas: Slas, s: State, step: Step)
    requires !step.Visit?
    ensures ReportsNothing(s, Next(slas, s, step))
  {
    if Accepts(s, step) {
      var mid := Accept(s, step.task);
      AcceptReportsNothing(s, step.task);
      ProcessNextReportsNothing(mid, step.task.role, step.runner);
      hide ProcessNext, Accept, ReportsNothing;
      NothingTwice(s, mid, ProcessNext(mid, step.task.role, step.runner));
    } else if Finishes(s, step) {
      var mid := Free(s, step.role, step.failed);
      FreeReportsNothing(s, step.role, step.failed);
      ProcessNextReportsNothing(mid, step.role, step.next);
      hide ProcessNext, Free, ReportsNothing;
      NothingTwice(s, mid, ProcessNext(mid, step.role, step.next));
    } else {
      hide Next, ReportsNothing;
      OthersReportNothing(slas, s, step);
    }
  }

  lemma OthersReportNothing(slas: Slas, s: State, step: Step)
    requires !step.Visit? && !Accepts(s, step) && !Finishes(s, step)
    ensures ReportsNothing(s, Next(slas, s, step))
  {
    hide EnqueueStep, AnsweredStep, CompleteStep, VisitStep, RegisterStep, WatchStep, ReportsNothing;
    match step
    case Enqueue(_, _) =>
      NothingHappens(slas, s, step);
      NothingNew(s, s);
      hide Next;
    case Complete(_, _, _) =>
      NothingHappens(slas, s, step);
      NothingNew(s, s);
      hide Next;
    case Answered(role) =>
      AnswerReportsNothing(s, role);
    case Register =>
      RegisterKeepsWork(s);
      NothingNew(s, RegisterStep(s));
    case Watch =>
      WatchKeepsWork(s);
      NothingNew(s, WatchStep(s));
    case Advance(ms) =>
      NothingNew(s, s.(clock := s.clock + ms));
    case StartTick(tick) =>
      NothingNew(s, s.(ticks := s.ticks[tick := s.clock]));
  }

  lemma AnswerReportsNothing(s: State, role: Role)
    ensures ReportsNothing(s, AnsweredStep(s, role))
  {
  }

  lemma NothingNew(s: State, s': State)
    requires s'.alerts == s.alerts && s'.clock >= s.clock && s'.begun == s.begun
    requires forall tick :: tick in s'.ticks ==>
             (tick in s.ticks && s'.ticks[tick] == s.ticks[tick]) || s'.ticks[tick] <= s'.clock
    requires forall p :: p in s'.pending ==> p in s.pending && s'.pending[p] == s.pending[p]
    ensures ReportsNothing(s, s')
  {
  }

  lemma ReportedHasBegun(slas: Slas, s: State, nr: nat)
    requires AlertsOk(slas, s) && Reported(s, nr)
    ensures nr < |s.begun|
  {
    var k :| 0 <= k < |s.alerts| && s.alerts[k].nr == nr;
    assert Late(slas, s, s.alerts[k]);
  }

  lemma NothingReportedKeepsAlerts(slas: Slas, s: State, s': State)
    requires AlertsOk(slas, s) && ReportsNothing(s, s')
    ensures AlertsOk(slas, s')
  {
    forall k | 0 <= k < |s'.alerts|
      ensures Late(slas, s', s'.alerts[k])
    {
      assert Late(slas, s, s.alerts[k]);
    }
    hide PastLimit;
    forall path | path in s'.pending
      ensures s'.pending[path].alerted <==> Reported(s', s'.pending[path].nr)
    {
      if Reported(s, s'.pending[path].nr) {
        ReportedHasBegun(slas, s, s'.pending[path].nr);
      }
    }
  }

  lemma NextKeepsAlerts(slas: Slas, s: State, step: Step)
    requires RuntimeInv(s) && PendingOk(s) && AlertsOk(slas, s)
    ensures AlertsOk(slas, Next(slas, s, step))
  {
    if step.Visit? {
      VisitKeepsAlerts(slas, s, step.tick, step.path);
    } else {
      NextReportsNothing(slas, s, step);
      hide RuntimeInv, PendingOk, AlertsOk, Next, ReportsNothing;
      NothingReportedKeepsAlerts(slas, s, Next(slas, s, step));
    }
  }

  lemma {:induction false} RunKeepsWatch(slas: Slas, init: State, steps: seq<Step>)
    requires Init(init)
    ensures PendingOk(Run(slas, init, steps)) && AlertsOk(slas, Run(slas, init, steps))
    decreases |steps|
  {
    if steps != [] {
      RunKeepsWatch(slas, init, steps[..|steps| - 1]);
      RunKeepsRuntimeInv(slas, init, steps[..|steps| - 1]);
      var s := Run(slas, init, steps[..|steps| - 1]);
      hide Next, PendingOk, AlertsOk, RuntimeInv;
      NextKeepsPending(slas, s, steps[|steps| - 1]);
      NextKeepsAlerts(slas, s, steps[|steps| - 1]);
    }
  }

  lemma OnlyWatchListens(slas: Slas, s: State, step: Step)
    ensures
      var s' := Next(slas, s, step);
      s'.watching == if step.Watch? && s.watching == NotYet then Since(|s.begun|) else s.watching
  {
    hide EnqueueStep, CompleteStep, AnsweredStep, VisitStep, RegisterStep, WatchStep;
    match step
    case Enqueue(task, runner) => EnqueueKeepsWatching(s, task, runner);
    case Complete(role, failed, next) => CompleteKeepsWatching(s, role, failed, next);
    case Answered(role) => AnswerKeepsWatching(s, role);
    case Visit(tick, path) => VisitKeepsWatching(slas, s, tick, path);
    case Watch => WatchListens(s);
    case Register => RegisterKeepsWatching(s);
    case _ =>
  }

  lemma ProcessNextKeepsWatching(s: State, role: Role, runner: Runner)
    ensures ProcessNext(s, role, runner).watching == s.watching
  {
    hide At;
  }

  lemma EnqueueKeepsWatching(s: State, task: Task, runner: Runner)
    ensures EnqueueStep(s, task, runner).watching == s.watching
  {
    ProcessNextKeepsWatching(Accept(s, task), task.role, runner);
    hide ProcessNext, At;
  }

  lemma CompleteKeepsWatching(s: State, role: Role, failed: bool, next: Runner)
    ensures CompleteStep(s, role, failed, next).watching == s.watching
  {
    if role in s.dispatching {
      ProcessNextKeepsWatching(Free(s, role, failed), role, next);
    }
    hide ProcessNext, At;
  }

  lemma AnswerKeepsWatching(s: State, role: Role)
    ensures AnsweredStep(s, role).watching == s.watching
  {
  }

  lemma VisitKeepsWatching(slas: Slas, s: State, tick: nat, path: Path)
    ensures VisitStep(slas, s, tick, path).watching == s.watching
  {
    hide Overdue;
  }

  lemma RegisterKeepsWatching(s: State)
    ensures RegisterStep(s).watching == s.watching
  {
  }

  lemma WatchListens(s: State)
    ensures WatchStep(s).watching == if s.watching == NotYet then Since(|s.begun|) else s.watching
  {
  }

  /** The supervisor watches from its first start on, and for good: what began before is not watched. */
  lemma {:induction false} FirstWatchCounts(slas: Slas, init: State, steps: seq<Step>)
    requires Init(init)
    ensures
      var watching := Run(slas, init, steps).watching;
      && (watching == NotYet <==> forall j :: 0 <= j < |steps| ==> !steps[j].Watch?)
      && forall i :: 0 <= i < |steps| && steps[i].Watch? && (forall j :: 0 <= j < i ==> !steps[j].Watch?) ==>
           watching == Since(|Run(slas, init, steps[..i]).begun|)
    decreases |steps|
  {
    hide Next, Run;
    if steps == [] {
      NothingRun(slas, init, steps);
    } else {
      var n, shorter := |steps| - 1, steps[..|steps| - 1];
      FirstWatchCounts(slas, init, shorter);
      RunSplits(slas, init, steps);
      OnlyWatchListens(slas, Run(slas, init, shorter), steps[n]);
      assert forall j :: 0 <= j < n ==> shorter[j] == steps[j] && shorter[..j] == steps[..j];
    }
  }

  lemma NothingRun(slas: Slas, init: State, steps: seq<Step>)
    requires Init(init) && steps == []
    ensures Run(slas, init, steps).watching == NotYet
  {
  }

  /** Whatever overlaps: what is pending is exactly what runs, of the dispatches begun since the supervisor
      listens, so its keys are active paths. */
  lemma PendingIsRunning(slas: Slas, init: State, steps: seq<Step>, path: Path)
    requires Init(init)
    ensures
      var s := Run(slas, init, steps);
      && (path in s.pending ==> path in s.inFlightPaths && exists role :: RunningAt(s, role, path))
      && (forall role :: RunningAt(s, role, path) && s.watching.Since? && s.dispatching[role].nr >= s.watching.nr ==>
            path in s.pending && s.pending[path].nr == s.dispatching[role].nr)
  {
    RunKeepsWatch(slas, init, steps);
    RunKeepsRuntimeInv(slas, init, steps);
    var s := Run(slas, init, steps);
    hide Run;
    PathsKeepApart(s);
    if path in s.pending {
      assert EntryOk(s, path);
      assert InLine(s, s.pending[path].role, 0, path);
    }
    hide RuntimeInv, At, InLine;
  }

  /** ... and however ticks and dispatches overlap, each dispatch is reported at most once, and only when
      it had run for longer than the limit of its role. */
  lemma ReportedOnceAndLate(slas: Slas, init: State, steps: seq<Step>)
    requires Init(init)
    ensures
      var s := Run(slas, init, steps);
      && (forall k :: 0 <= k < |s.alerts| ==> Late(slas, s, s.alerts[k]))
      && (forall j, k :: 0 <= j < k < |s.alerts| ==> s.alerts[j].nr != s.alerts[k].nr)
  {
    RunKeepsWatch(slas, init, steps);
    hide Run;
  }
}
