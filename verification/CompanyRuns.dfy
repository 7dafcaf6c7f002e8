/** What holds over every interleaving of queue events, dispatches, listeners and ticks between
    `start()` and `stop()` of a `CompanyRuntime`. */
module CompanyRuns {
  import opened CompanyDispatch

  /** The tasks of a role that are in the system: the one being dispatched, then its queue. */
  function Line(s: State, role: Role): seq<Task>
  {
    Active(s, role) + At(s.queues, role)
  }

  function Active(s: State, role: Role): seq<Task>
  {
    if role in s.dispatching then [s.dispatching[role].task] else []
  }

  /** `path` is in place `i` of the line of `role`. */
  predicate InLine(s: State, role: Role, i: int, path: Path)
  {
    0 <= i < |Line(s, role)| && Line(s, role)[i].path == path
  }

  /** `inFlightPaths` is the disjoint union of the paths queued and being dispatched, over all roles. */
  ghost predicate PathsOk(s: State)
  {
    && (forall path :: path in s.inFlightPaths <==> exists role, i :: InLine(s, role, i, path))
    && (forall path, role, i, role', i' :: InLine(s, role, i, path) && InLine(s, role', i', path) ==>
        role' == role && i' == i)
  }

  /** What was accepted for a role before the first poller was registered. */
  function Early(s: State, role: Role): seq<Task>
  {
    if s.polling then At(s.early, role) else At(s.accepted, role)
  }

  /** Nothing was accepted for the role before the first poller was registered, or something was since. */
  predicate Woken(s: State, role: Role)
  {
    Early(s, role) == [] || |At(s.accepted, role)| > |Early(s, role)|
  }

  /** What was accepted for a role is what is finished followed by its line. */
  ghost predicate LinesOk(s: State)
  {
    && (forall role :: At(s.accepted, role) == At(s.finished, role) + Line(s, role))
    && (forall role, i :: 0 <= i < |Line(s, role)| ==> Line(s, role)[i].role == role)
  }

  /** The tasks begun for a role, in order. */
  function BegunFor(begun: seq<Begun>, role: Role): seq<Task>
  {
    if begun == [] then []
    else
      var earlier, last := BegunFor(begun[..|begun| - 1], role), begun[|begun| - 1].task;
      if last.role == role then earlier + [last] else earlier
  }

  /** A role begins a task only when the one before is finished. */
  ghost predicate BegunOk(s: State)
  {
    && (forall role :: BegunFor(s.begun, role) == At(s.finished, role) + Active(s, role))
    && (forall role :: role in s.dispatching ==>
          s.dispatching[role].nr < |s.begun| && s.begun[s.dispatching[role].nr].task == s.dispatching[role].task)
    && (forall n :: 0 <= n < |s.begun| ==> s.begun[n].at <= s.clock)
  }

  /** Nothing begins before a poller is registered; a role that is not woken has begun nothing, and one that
      is woken and idle has no queue. */
  predicate WokenOk(s: State, role: Role)
  {
    && (!s.polling ==> s.dispatching == map[] && At(s.finished, role) == [])
    && |Early(s, role)| <= |At(s.accepted, role)|
    && (!Woken(s, role) ==> role !in s.dispatching && At(s.finished, role) == [])
    && (Woken(s, role) && role !in s.dispatching ==> At(s.queues, role) == [])
  }

  ghost predicate RuntimeInv(s: State)
  {
    PathsOk(s) && LinesOk(s) && BegunOk(s) && forall role :: WokenOk(s, role)
  }

  // ---- how the lines move -----------------------------------------------------------------------

  lemma ProcessNextKeepsLines(s: State, role: Role, runner: Runner)
    ensures forall r :: Line(ProcessNext(s, role, runner), r) == Line(s, r)
    ensures ProcessNext(s, role, runner).inFlightPaths == s.inFlightPaths
    ensures ProcessNext(s, role, runner).accepted == s.accepted && ProcessNext(s, role, runner).finished == s.finished
  {
    var s' := ProcessNext(s, role, runner);
    if role !in s.dispatching && At(s.queues, role) != [] && s.polling {
      var task := s.queues[role][0];
      assert s'.queues == s.queues[role := s.queues[role][1..]] && s'.dispatching.Keys == s.dispatching.Keys + {role};
      assert s'.dispatching[role].task == task && forall r :: r in s.dispatching ==>
          s'.dispatching[r] == s.dispatching[r];
      hide ProcessNext;
      forall r
        ensures Line(s', r) == Line(s, r)
      {
        HeadBecomesActive(s, s', role, r);
      }
    }
  }

  lemma HeadBecomesActive(s: State, s': State, role: Role, r: Role)
    requires role in s.queues && s.queues[role] != [] && role !in s.dispatching
    requires s'.queues == s.queues[role := s.queues[role][1..]] && s'.dispatching.Keys == s.dispatching.Keys + {role}
    requires s'.dispatching[role].task == s.queues[role][0]
    requires forall r :: r in s.dispatching ==> s'.dispatching[r] == s.dispatching[r]
    ensures Line(s', r) == Line(s, r)
  {
    assert s.queues[role] == [s.queues[role][0]] + s.queues[role][1..];
  }

  predicate Accepts(s: State, step: Step)
  {
    step.Enqueue? && step.task.path !in s.inFlightPaths
  }

  predicate Finishes(s: State, step: Step)
  {
    step.Complete? && step.role in s.dispatching && (s.dispatching[step.role].running ==> step.failed)
  }

  /** A task enters its line at the end and leaves it at the front; no other step moves a line. */
  lemma LinesMove(slas: Slas, s: State, step: Step)
    ensures
      var s' := Next(slas, s, step);
      && (Accepts(s, step) ==>
            && Line(s', step.task.role) == Line(s, step.task.role) + [step.task]
            && forall r :: r != step.task.role ==> Line(s', r) == Line(s, r))
      && (Finishes(s, step) ==>
            && Line(s', step.role) == Line(s, step.role)[1..]
            && forall r :: r != step.role ==> Line(s', r) == Line(s, r))
      && (!Accepts(s, step) && !Finishes(s, step) ==> forall r :: Line(s', r) == Line(s, r))
  {
    if Accepts(s, step) {
      AcceptMovesLine(s, step.task);
      ProcessNextKeepsLines(Accept(s, step.task), step.task.role, step.runner);
      hide ProcessNext, Accept, Line;
    } else if Finishes(s, step) {
      FreeMovesLine(s, step.role, step.failed);
      ProcessNextKeepsLines(Free(s, step.role, step.failed), step.role, step.next);
      hide ProcessNext, Free, Line;
    } else if step.Enqueue? || step.Complete? {
      NothingHappens(slas, s, step);
      hide Next;
    } else if step.Answered? {
      AnswerKeepsLines(s, step.role);
      hide AnsweredStep, Line;
    } else {
      OthersKeepWork(slas, s, step);
      hide Next;
    }
  }

  lemma AnswerKeepsLines(s: State, role: Role)
    ensures forall r :: Line(AnsweredStep(s, role), r) == Line(s, r)
  {
    AnswerKeepsHistory(s, role);
    AnswerKeepsDispatches(s, role);
    hide AnsweredStep, At;
  }

  lemma AcceptMovesLine(s: State, task: Task)
    ensures Line(Accept(s, task), task.role) == Line(s, task.role) + [task]
    ensures forall r :: r != task.role ==> Line(Accept(s, task), r) == Line(s, r)
  {
  }

  lemma FreeMovesLine(s: State, role: Role, failed: bool)
    requires role in s.dispatching
    ensures Line(Free(s, role, failed), role) == Line(s, role)[1..]
    ensures forall r :: r != role ==> Line(Free(s, role, failed), r) == Line(s, r)
  {
  }

  // ---- the runtime's invariant ------------------------------------------------------------------

  lemma PathsStay(s: State, s': State)
    requires PathsOk(s) && s'.inFlightPaths == s.inFlightPaths && forall r :: Line(s', r) == Line(s, r)
    ensures PathsOk(s')
  {
    assert forall path, role, i :: InLine(s', role, i, path) == InLine(s, role, i, path);
    hide InLine, Line;
  }

  lemma PathsAppend(s: State, s': State, task: Task)
    requires PathsOk(s) && task.path !in s.inFlightPaths && s'.inFlightPaths == s.inFlightPaths + {task.path}
    requires Line(s', task.role) == Line(s, task.role) + [task]
    requires forall r :: r != task.role ==> Line(s', r) == Line(s, r)
    ensures PathsOk(s')
  {
    var last := |Line(s, task.role)|;
    hide Line;
    forall path, role, i
      ensures InLine(s', role, i, path) <==>
              InLine(s, role, i, path) || (role == task.role && i == last && path == task.path)
    {
      InLineAfterAppend(s, s', task, role, i, path);
    }
    assert InLine(s', task.role, last, task.path);
    hide InLine, Line;
    assert forall role, i :: !InLine(s, role, i, task.path);
  }

  lemma InLineAfterAppend(s: State, s': State, task: Task, role: Role, i: int, path: Path)
    requires Line(s', task.role) == Line(s, task.role) + [task]
    requires role != task.role ==> Line(s', role) == Line(s, role)
    ensures InLine(s', role, i, path) <==>
            InLine(s, role, i, path) || (role == task.role && i == |Line(s, task.role)| && path == task.path)
  {
    hide Line;
  }

  lemma PathsDrop(s: State, s': State, role: Role)
    requires PathsOk(s) && Line(s, role) != [] && s'.inFlightPaths == s.inFlightPaths - {Line(s, role)[0].path}
    requires Line(s', role) == Line(s, role)[1..]
    requires forall r :: r != role ==> Line(s', r) == Line(s, r)
    ensures PathsOk(s')
  {
    var gone := Line(s, role)[0].path;
    assert InLine(s, role, 0, gone);
    forall path, r, i
      ensures InLine(s', r, i, path) ==> InLine(s, r, if r == role then i + 1 else i, path) && path != gone
    {
      if InLine(s', r, i, path) {
        assert InLine(s, r, if r == role then i + 1 else i, path);
      }
    }
    forall path | path in s'.inFlightPaths
      ensures exists r, i :: InLine(s', r, i, path)
    {
      var r, i :| InLine(s, r, i, path);
      assert InLine(s', r, if r == role then i - 1 else i, path);
    }
    forall path, r, i, r', i' | InLine(s', r, i, path) && InLine(s', r', i', path)
      ensures r' == r && i' == i
    {
      assert InLine(s, r, if r == role then i + 1 else i, path)
          && InLine(s, r', if r' == role then i' + 1 else i', path);
    }
    hide Line, InLine;
  }

  lemma NextMovesPaths(slas: Slas, s: State, step: Step)
    ensures
      var s' := Next(slas, s, step);
      && (Accepts(s, step) ==> s'.inFlightPaths == s.inFlightPaths + {step.task.path})
      && (Finishes(s, step) ==> s'.inFlightPaths == s.inFlightPaths - {s.dispatching[step.role].task.path})
      && (!Accepts(s, step) && !Finishes(s, step) ==> s'.inFlightPaths == s.inFlightPaths)
  {
    if Accepts(s, step) {
      ProcessNextKeepsLines(Accept(s, step.task), step.task.role, step.runner);
      hide ProcessNext, Line;
    } else if Finishes(s, step) {
      ProcessNextKeepsLines(Free(s, step.role, step.failed), step.role, step.next);
      hide ProcessNext, Line;
    } else {
      OthersKeepHistory(slas, s, step);
      hide Next;
    }
  }

  lemma NextKeepsPaths(slas: Slas, s: State, step: Step)
    requires PathsOk(s)
    ensures PathsOk(Next(slas, s, step))
  {
    var s' := Next(slas, s, step);
    LinesMove(slas, s, step);
    NextMovesPaths(slas, s, step);
    hide Next, PathsOk;
    if Accepts(s, step) {
      PathsAppend(s, s', step.task);
    } else if Finishes(s, step) {
      PathsDrop(s, s', step.role);
    } else {
      PathsStay(s, s');
    }
  }

  lemma NextMovesHistory(slas: Slas, s: State, step: Step)
    ensures
      var s' := Next(slas, s, step);
      && (forall r :: At(s'.accepted, r) ==
            if Accepts(s, step) && r == step.task.role then At(s.accepted, r) + [step.task] else At(s.accepted, r))
      && (forall r :: At(s'.finished, r) ==
            if Finishes(s, step) && r == step.role then At(s.finished, r) + [s.dispatching[r].task]
                else At(s.finished, r))
  {
    if Accepts(s, step) {
      ProcessNextKeepsLines(Accept(s, step.task), step.task.role, step.runner);
      hide ProcessNext, Line;
    } else if Finishes(s, step) {
      ProcessNextKeepsLines(Free(s, step.role, step.failed), step.role, step.next);
      hide ProcessNext, Line;
    } else {
      OthersKeepHistory(slas, s, step);
      hide Next;
    }
  }

  lemma OthersKeepHistory(slas: Slas, s: State, step: Step)
    requires !Accepts(s, step) && !Finishes(s, step)
    ensures
      var s' := Next(slas, s, step);
      s'.accepted == s.accepted && s'.finished == s.finished && s'.inFlightPaths == s.inFlightPaths
  {
    if step.Enqueue? || step.Complete? {
      NothingHappens(slas, s, step);
      hide Next;
    } else if step.Answered? {
      AnswerKeepsHistory(s, step.role);
      hide AnsweredStep;
    } else {
      OthersKeepWork(slas, s, step);
      hide Next;
    }
  }

  lemma AnswerKeepsHistory(s: State, role: Role)
    ensures
      var s' := AnsweredStep(s, role);
      && s'.accepted == s.accepted && s'.finished == s.finished && s'.inFlightPaths == s.inFlightPaths
      && s'.queues == s.queues && s'.polling == s.polling && s'.early == s.early
      && s'.begun == s.begun && s'.clock == s.clock
  {
    if role in s.dispatching && s.dispatching[role].running && s.watching.Since? {
    } else {
    }
  }

  /** The equation for one role, before and after a step. */
  predicate RoleOk(accepted: seq<Task>, finished: seq<Task>, line: seq<Task>, role: Role)
  {
    accepted == finished + line && forall i :: 0 <= i < |line| ==> line[i].role == role
  }

  lemma RoleOkMoves(accepted: seq<Task>, finished: seq<Task>, line: seq<Task>, role: Role)
    requires RoleOk(accepted, finished, line, role)
    ensures forall task: Task :: task.role == role ==> RoleOk(accepted + [task], finished, line + [task], role)
    ensures line != [] ==> RoleOk(accepted, finished + [line[0]], line[1..], role)
  {
    assert forall task: Task :: finished + line + [task] == finished + (line + [task]);
    assert line != [] ==> line == [line[0]] + line[1..];
  }

  lemma NextKeepsRole(slas: Slas, s: State, step: Step, role: Role)
    requires RoleOk(At(s.accepted, role), At(s.finished, role), Line(s, role), role)
    ensures
      var s' := Next(slas, s, step);
      RoleOk(At(s'.accepted, role), At(s'.finished, role), Line(s', role), role)
  {
    LinesMove(slas, s, step);
    NextMovesHistory(slas, s, step);
    RoleOkMoves(At(s.accepted, role), At(s.finished, role), Line(s, role), role);
    assert Finishes(s, step) ==> Line(s, step.role)[0] == s.dispatching[step.role].task;
    hide Next, Line, At, RoleOk;
  }

  lemma NextKeepsLines(slas: Slas, s: State, step: Step)
    requires LinesOk(s)
    ensures LinesOk(Next(slas, s, step))
  {
    var s' := Next(slas, s, step);
    hide Next, Line, At;
    forall role
      ensures RoleOk(At(s'.accepted, role), At(s'.finished, role), Line(s', role), role)
    {
      NextKeepsRole(slas, s, step, role);
    }
  }

  // ---- one dispatch at a time -------------------------------------------------------------------

  lemma BegunForAppend(begun: seq<Begun>, b: Begun, role: Role)
    ensures BegunFor(begun + [b], role) == BegunFor(begun, role) + if b.task.role == role then [b.task] else []
  {
    assert (begun + [b])[..|begun|] == begun;
  }

  predicate Begins(s: State, s': State, role: Role, task: Task)
  {
    && role !in s.dispatching && task.role == role
    && s'.begun == s.begun + [Begun(task, s.clock)]
    && s'.dispatching.Keys == s.dispatching.Keys + {role}
    && s'.dispatching[role].task == task && s'.dispatching[role].nr == |s.begun|
    && (forall r :: r in s.dispatching ==> s'.dispatching[r] == s.dispatching[r])
  }

  lemma ProcessNextBegins(s: State, role: Role, runner: Runner)
    requires forall i :: 0 <= i < |At(s.queues, role)| ==> At(s.queues, role)[i].role == role
    ensures
      var s' := ProcessNext(s, role, runner);
      && s'.finished == s.finished && s'.clock == s.clock
      && (s' == s || exists task :: Begins(s, s', role, task))
  {
    var s' := ProcessNext(s, role, runner);
    if role in s.dispatching || At(s.queues, role) == [] || !s.polling {
    } else {
      var task := s.queues[role][0];
      assert s'.begun == s.begun + [Begun(task, s.clock)] && s'.finished == s.finished && s'.clock == s.clock;
      assert s'.dispatching == s.dispatching[role := Dispatch(task, |s.begun|, runner.RealRunner?)];
      hide ProcessNext;
      assert Begins(s, s', role, task);
    }
  }

  lemma BeginKeepsBegun(s: State, s': State, role: Role, task: Task)
    requires BegunOk(s) && Begins(s, s', role, task) && s'.finished == s.finished && s'.clock == s.clock
    ensures BegunOk(s')
  {
    forall r
      ensures BegunFor(s'.begun, r) == At(s'.finished, r) + Active(s', r)
    {
      BegunForAppend(s.begun, Begun(task, s.clock), r);
      hide BegunFor, At;
      assert BegunFor(s.begun, r) == At(s.finished, r) + Active(s, r);
    }
    hide BegunFor, At, Active;
  }

  lemma ProcessNextKeepsBegun(s: State, role: Role, runner: Runner)
    requires BegunOk(s) && forall i :: 0 <= i < |At(s.queues, role)| ==> At(s.queues, role)[i].role == role
    ensures BegunOk(ProcessNext(s, role, runner))
  {
    var s' := ProcessNext(s, role, runner);
    ProcessNextBegins(s, role, runner);
    hide ProcessNext, BegunOk, Begins;
    if s' != s {
      var task :| Begins(s, s', role, task);
      BeginKeepsBegun(s, s', role, task);
    }
  }

  lemma AcceptKeepsBegun(s: State, task: Task)
    requires BegunOk(s)
    ensures BegunOk(Accept(s, task))
  {
    hide BegunFor, At;
    assert forall r :: Active(Accept(s, task), r) == Active(s, r);
  }

  lemma FreeKeepsBegun(s: State, role: Role, failed: bool)
    requires BegunOk(s) && role in s.dispatching
    ensures BegunOk(Free(s, role, failed))
  {
    var s' := Free(s, role, failed);
    assert s'.begun == s.begun && s'.clock == s.clock && s'.dispatching == s.dispatching - {role};
    forall r
      ensures BegunFor(s'.begun, r) == At(s'.finished, r) + Active(s', r)
    {
      assert BegunFor(s.begun, r) == At(s.finished, r) + Active(s, r);
      hide BegunFor;
    }
    hide BegunFor, At, Active, Free;
  }

  lemma NextKeepsBegun(slas: Slas, s: State, step: Step)
    requires LinesOk(s) && BegunOk(s)
    ensures BegunOk(Next(slas, s, step))
  {
    if Accepts(s, step) {
      AcceptKeepsBegun(s, step.task);
      AcceptedQueueRoles(s, step.task);
      hide ProcessNext, BegunOk, LinesOk, Accept;
      ProcessNextKeepsBegun(Accept(s, step.task), step.task.role, step.runner);
    } else if Finishes(s, step) {
      FreeKeepsBegun(s, step.role, step.failed);
      QueueRoles(s, step.role);
      assert Free(s, step.role, step.failed).queues == s.queues;
      hide ProcessNext, BegunOk, LinesOk, Free;
      ProcessNextKeepsBegun(Free(s, step.role, step.failed), step.role, step.next);
    } else {
      hide LinesOk;
      OthersKeepBegun(slas, s, step);
    }
  }

  /** The dispatches are the same, except perhaps for having been answered. */
  predicate SameDispatches(s: State, s': State)
  {
    && s'.begun == s.begun && s'.finished == s.finished && s'.clock >= s.clock
    && s'.dispatching.Keys == s.dispatching.Keys
    && forall r :: r in s.dispatching ==>
         s'.dispatching[r].nr == s.dispatching[r].nr && s'.dispatching[r].task == s.dispatching[r].task
  }

  lemma NothingHappens(slas: Slas, s: State, step: Step)
    requires (step.Enqueue? && !Accepts(s, step)) || (step.Complete? && !Finishes(s, step))
    ensures Next(slas, s, step) == s
  {
    hide ProcessNext, Accept, Free;
  }

  /** Neither queues nor dispatches are touched. */
  predicate SameWork(s: State, s': State)
  {
    && s'.queues == s.queues && s'.dispatching == s.dispatching && s'.inFlightPaths == s.inFlightPaths
    && s'.accepted == s.accepted && s'.begun == s.begun && s'.finished == s.finished && s'.clock >= s.clock
  }

  lemma VisitKeepsWork(slas: Slas, s: State, tick: nat, path: Path)
    ensures
      var s' := VisitStep(slas, s, tick, path);
      SameWork(s, s') && s'.polling == s.polling && s'.early == s.early
  {
    hide Overdue;
  }

  lemma RegisterKeepsWork(s: State)
    ensures SameWork(s, RegisterStep(s)) && RegisterStep(s).pending == s.pending
    ensures RegisterStep(s).ticks == s.ticks && RegisterStep(s).alerts == s.alerts
  {
    if s.polling {
    } else {
    }
  }

  lemma WatchKeepsWork(s: State)
    ensures
      var s' := WatchStep(s);
      && SameWork(s, s') && s'.polling == s.polling && s'.early == s.early
      && s'.pending == s.pending && s'.ticks == s.ticks && s'.alerts == s.alerts
  {
    if s.watching.Since? {
    } else {
    }
  }

  lemma OthersKeepWork(slas: Slas, s: State, step: Step)
    requires step.Register? || step.Watch? || step.Advance? || step.StartTick? || step.Visit?
    ensures SameWork(s, Next(slas, s, step))
    ensures !step.Register? ==> Next(slas, s, step).polling == s.polling && Next(slas, s, step).early == s.early
  {
    hide EnqueueStep, AnsweredStep, CompleteStep, VisitStep, RegisterStep, WatchStep;
    match step
    case Visit(tick, path) =>
      VisitKeepsWork(slas, s, tick, path);
      hide SameWork;
    case Register =>
      RegisterKeepsWork(s);
      hide SameWork;
    case Watch =>
      WatchKeepsWork(s);
      hide SameWork;
    case Advance(_) =>
    case StartTick(_) =>
  }

  lemma OthersKeepDispatches(slas: Slas, s: State, step: Step)
    requires !Accepts(s, step) && !Finishes(s, step)
    ensures SameDispatches(s, Next(slas, s, step))
  {
    var s' := Next(slas, s, step);
    if step.Answered? {
      AnswerKeepsDispatches(s, step.role);
    } else if step.Enqueue? || step.Complete? {
      NothingHappens(slas, s, step);
      hide Next;
    } else {
      OthersKeepWork(slas, s, step);
      hide Next, SameDispatches;
      EqualDispatches(s, s');
    }
  }

  lemma AnswerKeepsDispatches(s: State, role: Role)
    ensures SameDispatches(s, AnsweredStep(s, role))
  {
    AnswerKeepsHistory(s, role);
    if role in s.dispatching && s.dispatching[role].running {
      var s' := AnsweredStep(s, role);
      assert s'.dispatching == s.dispatching[role := s.dispatching[role].(running := false)];
      hide AnsweredStep;
    }
  }

  lemma EqualDispatches(s: State, s': State)
    requires s'.begun == s.begun && s'.finished == s.finished && s'.clock >= s.clock && s'.dispatching == s.dispatching
    ensures SameDispatches(s, s')
  {
  }

  lemma OthersKeepBegun(slas: Slas, s: State, step: Step)
    requires BegunOk(s) && !Accepts(s, step) && !Finishes(s, step)
    ensures BegunOk(Next(slas, s, step))
  {
    var s' := Next(slas, s, step);
    OthersKeepDispatches(slas, s, step);
    hide BegunFor, At, Next;
    assert forall r :: Active(s', r) == Active(s, r);
    hide Active;
  }

  lemma AcceptedQueueRoles(s: State, task: Task)
    requires LinesOk(s)
    ensures
      var queue := At(Accept(s, task).queues, task.role);
      forall i :: 0 <= i < |queue| ==> queue[i].role == task.role
  {
    QueueRoles(s, task.role);
    hide LinesOk;
    assert At(Accept(s, task).queues, task.role) == At(s.queues, task.role) + [task];
  }

  lemma QueueRoles(s: State, role: Role)
    requires LinesOk(s)
    ensures forall i :: 0 <= i < |At(s.queues, role)| ==> At(s.queues, role)[i].role == role
  {
    var k := |Active(s, role)|;
    assert forall i :: 0 <= i < |At(s.queues, role)| ==> Line(s, role)[k + i] == At(s.queues, role)[i];
  }

  // ---- who is woken -----------------------------------------------------------------------------

  /** A role keeps still when another one is concerned. */
  predicate SameFor(s: State, s': State, role: Role)
  {
    && s'.polling == s.polling && s'.early == s.early && At(s'.accepted, role) == At(s.accepted, role)
    && At(s'.finished, role) == At(s.finished, role) && At(s'.queues, role) == At(s.queues, role)
    && (role in s'.dispatching <==> role in s.dispatching) && (!s.polling ==> s'.dispatching == s.dispatching)
  }

  lemma SameKeepsWoken(s: State, s': State, role: Role)
    requires WokenOk(s, role) && SameFor(s, s', role)
    ensures WokenOk(s', role)
  {
  }

  lemma ProcessNextTouchesOne(s: State, role: Role, runner: Runner, r: Role)
    requires r != role
    ensures SameFor(s, ProcessNext(s, role, runner), r)
  {
  }

  lemma AcceptTouchesOne(s: State, task: Task, r: Role)
    requires s.polling && r != task.role
    ensures SameFor(s, Accept(s, task), r)
  {
  }

  lemma FreeTouchesOne(s: State, role: Role, failed: bool, r: Role)
    requires s.polling && role in s.dispatching && r != role
    ensures SameFor(s, Free(s, role, failed), r)
  {
  }

  lemma SameTwice(s: State, s': State, s'': State, role: Role)
    requires SameFor(s, s', role) && SameFor(s', s'', role)
    ensures SameFor(s, s'', role)
  {
  }

  /** With a poller registered, an idle role begins what it has. */
  lemma ProcessNextWakes(s: State, role: Role, runner: Runner)
    requires s.polling && Woken(s, role) && |Early(s, role)| <= |At(s.accepted, role)|
    ensures WokenOk(ProcessNext(s, role, runner), role)
  {
    var s' := ProcessNext(s, role, runner);
    if role !in s.dispatching && At(s.queues, role) != [] {
      assert role in s'.dispatching && s'.polling && s'.accepted == s.accepted && s'.early == s.early;
    } else {
      assert s' == s;
    }
    hide ProcessNext;
  }

  lemma AcceptKeepsWoken(s: State, task: Task, runner: Runner, role: Role)
    requires WokenOk(s, role)
    ensures WokenOk(ProcessNext(Accept(s, task), task.role, runner), role)
  {
    var mid := Accept(s, task);
    if s.polling && role == task.role {
      ProcessNextWakes(mid, role, runner);
    } else if s.polling {
      AcceptTouchesOne(s, task, role);
      ProcessNextTouchesOne(mid, task.role, runner, role);
      hide ProcessNext, Accept, SameFor, WokenOk;
      SameTwice(s, mid, ProcessNext(mid, task.role, runner), role);
      SameKeepsWoken(s, ProcessNext(mid, task.role, runner), role);
    }
  }

  lemma FinishKeepsWoken(s: State, done: Role, failed: bool, runner: Runner, role: Role)
    requires WokenOk(s, role) && done in s.dispatching
    ensures WokenOk(ProcessNext(Free(s, done, failed), done, runner), role)
  {
    var mid := Free(s, done, failed);
    if role == done {
      ProcessNextWakes(mid, role, runner);
    } else {
      FreeTouchesOne(s, done, failed, role);
      ProcessNextTouchesOne(mid, done, runner, role);
      hide ProcessNext, Free, SameFor, WokenOk;
      SameTwice(s, mid, ProcessNext(mid, done, runner), role);
      SameKeepsWoken(s, ProcessNext(mid, done, runner), role);
    }
  }

  lemma NextKeepsWoken(slas: Slas, s: State, step: Step, role: Role)
    requires WokenOk(s, role)
    ensures WokenOk(Next(slas, s, step), role)
  {
    if Accepts(s, step) {
      AcceptKeepsWoken(s, step.task, step.runner, role);
      hide ProcessNext, Accept, WokenOk;
    } else if Finishes(s, step) {
      FinishKeepsWoken(s, step.role, step.failed, step.next, role);
      hide ProcessNext, Free, WokenOk;
    } else if step.Enqueue? || step.Complete? {
      NothingHappens(slas, s, step);
      hide Next;
    } else if step.Answered? {
      AnswerKeepsHistory(s, step.role);
      AnswerKeepsDispatches(s, step.role);
      assert SameFor(s, AnsweredStep(s, step.role), role);
      hide AnsweredStep, SameFor, WokenOk;
      SameKeepsWoken(s, AnsweredStep(s, step.role), role);
    } else if step.Register? {
      hide EnqueueStep, CompleteStep, AnsweredStep;
    } else {
      OthersKeepWork(slas, s, step);
      hide Next;
    }
  }

  lemma NextKeepsAllWoken(slas: Slas, s: State, step: Step)
    requires forall role :: WokenOk(s, role)
    ensures forall role :: WokenOk(Next(slas, s, step), role)
  {
    var s' := Next(slas, s, step);
    hide Next, WokenOk;
    forall role
      ensures WokenOk(s', role)
    {
      NextKeepsWoken(slas, s, step, role);
    }
  }

  lemma {:induction false} RunKeepsRuntimeInv(slas: Slas, init: State, steps: seq<Step>)
    requires Init(init)
    ensures RuntimeInv(Run(slas, init, steps))
    decreases |steps|
  {
    if steps != [] {
      RunKeepsRuntimeInv(slas, init, steps[..|steps| - 1]);
      var s := Run(slas, init, steps[..|steps| - 1]);
      hide Next, PathsOk, LinesOk, BegunOk, WokenOk;
      NextKeepsPaths(slas, s, steps[|steps| - 1]);
      NextKeepsLines(slas, s, steps[|steps| - 1]);
      NextKeepsBegun(slas, s, steps[|steps| - 1]);
      NextKeepsAllWoken(slas, s, steps[|steps| - 1]);
    }
  }

  /** For every role, in every run: its tasks are begun in the order of arrival, one at a time, and none is
      lost. An idle role has finished all it accepted exactly if it accepted nothing before the first poller
      was registered, or accepted something since. */
  lemma RolesAreServedInOrder(slas: Slas, init: State, steps: seq<Step>, role: Role)
    requires Init(init)
    ensures
      var s := Run(slas, init, steps);
      && BegunFor(s.begun, role) <= At(s.accepted, role)
      && At(s.accepted, role) == At(s.finished, role) + Active(s, role) + At(s.queues, role)
      && |BegunFor(s.begun, role)| - |At(s.finished, role)| == (if role in s.dispatching then 1 else 0)
      && (role !in s.dispatching ==> (At(s.finished, role) == At(s.accepted, role) <==> Woken(s, role)))
  {
    RunKeepsRuntimeInv(slas, init, steps);
    hide Run, PathsOk, LinesOk, BegunOk, WokenOk;
    InvGivesOrder(Run(slas, init, steps), role);
  }

  lemma InvGivesOrder(s: State, role: Role)
    requires LinesOk(s) && BegunOk(s) && WokenOk(s, role)
    ensures BegunFor(s.begun, role) <= At(s.accepted, role)
    ensures At(s.accepted, role) == At(s.finished, role) + Active(s, role) + At(s.queues, role)
    ensures |BegunFor(s.begun, role)| - |At(s.finished, role)| == (if role in s.dispatching then 1 else 0)
    ensures role !in s.dispatching ==> (At(s.finished, role) == At(s.accepted, role) <==> Woken(s, role))
  {
    assert At(s.accepted, role) == At(s.finished, role) + Line(s, role);
    assert BegunFor(s.begun, role) == At(s.finished, role) + Active(s, role);
    assert |Active(s, role)| == if role in s.dispatching then 1 else 0;
    assert !Woken(s, role) ==> At(s.finished, role) == [] && At(s.accepted, role) != [];
    assert Woken(s, role) && role !in s.dispatching ==> At(s.queues, role) == [];
    hide At, BegunFor, LinesOk, BegunOk, WokenOk, Woken, Active;
    Prefixes(At(s.finished, role), Active(s, role), At(s.queues, role));
  }

  /** The role is idle with this one task in its queue although a poller is registered. */
  predicate Waits(s: State, task: Task)
  {
    && s.polling && task.role !in s.dispatching
    && At(s.queues, task.role) == [task] && At(s.finished, task.role) == []
  }

  lemma WaitingTaskWaits(slas: Slas, s: State, task: Task, step: Step)
    requires PathsOk(s) && Waits(s, task)
    requires step.Enqueue? && step.task.role == task.role ==> step.task.path == task.path
    ensures Waits(Next(slas, s, step), task)
  {
    assert InLine(s, task.role, 0, task.path);
    var s' := Next(slas, s, step);
    if Accepts(s, step) {
      AcceptTouchesOne(s, step.task, task.role);
      ProcessNextTouchesOne(Accept(s, step.task), step.task.role, step.runner, task.role);
      hide ProcessNext, Accept, PathsOk;
    } else if Finishes(s, step) {
      FreeTouchesOne(s, step.role, step.failed, task.role);
      ProcessNextTouchesOne(Free(s, step.role, step.failed), step.role, step.next, task.role);
      hide ProcessNext, Free, PathsOk;
    } else if step.Enqueue? || step.Complete? {
      NothingHappens(slas, s, step);
    } else if step.Answered? {
      hide PathsOk, ProcessNext;
    } else {
      OthersKeepWork(slas, s, step);
      hide Next, PathsOk;
    }
  }

  lemma RunOfTwo(slas: Slas, s: State, first: Step, second: Step)
    ensures Run(slas, s, [first, second]) == Next(slas, Next(slas, s, first), second)
  {
    var one, none: seq<Step> := [first], [];
    assert one[..0] == none && [first, second][..1] == one;
    assert Run(slas, s, one) == Next(slas, Run(slas, s, none), first);
    hide Next;
  }

  lemma AllButLast(steps: seq<Step>, more: seq<Step>)
    requires more != []
    ensures
      var n, all := |more| - 1, steps + more;
      all != [] && all[..|all| - 1] == steps + more[..n] && all[|all| - 1] == more[n]
  {
  }

  lemma RunSplits(slas: Slas, s: State, steps: seq<Step>)
    requires steps != []
    ensures Run(slas, s, steps) == Next(slas, Run(slas, s, steps[..|steps| - 1]), steps[|steps| - 1])
  {
    hide Next;
  }

  lemma LastStep(slas: Slas, s: State, steps: seq<Step>, more: seq<Step>)
    requires more != []
    ensures
      var n := |more| - 1;
      Run(slas, s, steps + more) == Next(slas, Run(slas, s, steps + more[..n]), more[n])
  {
    hide Next, Run;
    AllButLast(steps, more);
    RunSplits(slas, s, steps + more);
  }

  lemma EarlyTaskIsQueued(slas: Slas, init: State, task: Task, runner: Runner)
    requires Init(init)
    ensures Waits(Run(slas, init, [Enqueue(task, runner), Register]), task)
  {
    RunOfTwo(slas, init, Enqueue(task, runner), Register);
    hide Run;
    var mid := Accept(init, task);
    assert At(init.queues, task.role) + [task] == [task];
    assert EnqueueStep(init, task, runner) == mid;
    assert mid.queues == map[task.role := [task]] && !mid.polling && mid.dispatching == map[] && mid.finished == map[];
    hide EnqueueStep, Accept;
  }

  /** A task picked up while its poller is starting, before that is registered: the role stays idle with it,
      whatever else happens, until another file arrives for the role; further events for the task's own file
      are dropped. */
  lemma {:induction false} EarlyTaskWaits(slas: Slas, init: State, task: Task, runner: Runner, rest: seq<Step>)
    requires Init(init)
    requires forall k :: 0 <= k < |rest| ==>
               rest[k].Enqueue? && rest[k].task.role == task.role ==> rest[k].task.path == task.path
    ensures Waits(Run(slas, init, [Enqueue(task, runner), Register] + rest), task)
    decreases |rest|
  {
    hide Waits, PathsOk, LinesOk, BegunOk, WokenOk, Next, Run, EnqueueStep, RegisterStep;
    var first := [Enqueue(task, runner), Register];
    if rest == [] {
      assert first + rest == first;
      EarlyTaskIsQueued(slas, init, task, runner);
    } else {
      var n := |rest| - 1;
      EarlyTaskWaits(slas, init, task, runner, rest[..n]);
      RunKeepsRuntimeInv(slas, init, first + rest[..n]);
      LastStep(slas, init, first, rest);
      WaitingTaskWaits(slas, Run(slas, init, first + rest[..n]), task, rest[n]);
    }
  }

  lemma Prefixes(finished: seq<Task>, active: seq<Task>, queue: seq<Task>)
    ensures finished + (active + queue) == finished + active + queue
    ensures finished + active <= finished + (active + queue)
  {
  }

  /** Every task file is in the system at most once, and `inFlightPaths` names exactly those that are. */
  lemma PathsAreUnique(slas: Slas, init: State, steps: seq<Step>)
    requires Init(init)
    ensures
      var s := Run(slas, init, steps);
      && (forall path :: path in s.inFlightPaths <==> exists role, i :: InLine(s, role, i, path))
      && (forall path, role, i, role', i' :: InLine(s, role, i, path) && InLine(s, role', i', path) ==>
          role' == role && i' == i)
  {
    RunKeepsRuntimeInv(slas, init, steps);
    hide Run;
  }
}
