/** `CompanyRuntime` and the `Supervisor` that listens to it, from the first listener of `start()` to `stop()`.

    A poller may hand over tasks before `start()` has registered it; until one is registered no role begins
    a task. One queue per role, one dispatch per role at a time, the roles side by side; `inFlightPaths` drops
    repeated events for a task file. The supervisor is told when a dispatch starts and ends, and its ticks,
    which may overlap each other and everything else, report the overdue ones. */
module CompanyDispatch {
  type Role = string
  type Path = string

  datatype Task = Task(path: Path, role: Role)

  /** What `runners` holds for a role when a dispatch begins. */
  datatype Runner = NoRunner | StubRunner | RealRunner

  /** A dispatch: running, or past its last event to the supervisor. `nr` counts the dispatches begun. */
  datatype Dispatch = Dispatch(task: Task, nr: nat, running: bool)

  /** An entry of the supervisor's `_pending`; `nr` is the dispatch it was made for. */
  datatype Info = Info(role: Role, startedAt: int, alerted: bool, nr: nat)

  /** Whether the supervisor listens, and how many dispatches had begun when it started to. */
  datatype Listening = NotYet | Since(nr: nat)

  datatype Alert = Alert(nr: nat, now: int)

  datatype Begun = Begun(task: Task, at: int)

  /** `polling` says that a poller is registered. `early` is what was accepted before the first registration; it and
      `accepted`, `begun`, `finished` and `alerts` are the history of the run. */
  datatype State = State(
    queues: map<Role, seq<Task>>,
    dispatching: map<Role, Dispatch>,
    inFlightPaths: set<Path>,
    polling: bool,
    pending: map<Path, Info>,
    watching: Listening,
    clock: int,
    ticks: map<nat, int>,
    early: map<Role, seq<Task>>,
    accepted: map<Role, seq<Task>>,
    begun: seq<Begun>,
    finished: map<Role, seq<Task>>,
    alerts: seq<Alert>)

  datatype Step =
    | Enqueue(task: Task, runner: Runner)
    | Answered(role: Role)
    | Complete(role: Role, failed: bool, next: Runner)
    | Register
    | Watch
    | Advance(ms: nat)
    | StartTick(tick: nat)
    | Visit(tick: nat, path: Path)

  predicate Init(s: State)
  {
    && s.queues == map[] && s.dispatching == map[] && s.inFlightPaths == {} && s.pending == map[]
    && !s.polling && s.watching == NotYet && s.ticks == map[]
    && s.early == map[] && s.accepted == map[] && s.begun == [] && s.finished == map[] && s.alerts == []
  }

  function At<T>(m: map<Role, seq<T>>, role: Role): seq<T>
  {
    if role in m then m[role] else []
  }

  // ---- the steps of the runtime ---------------------------------------------------------------

  /** The part of `_dispatchToRole` before its first await. */
  function Begin(s: State, role: Role, task: Task, runner: Runner): State
  {
    var nr := |s.begun|;
    var s' := s.(dispatching := s.dispatching[role := Dispatch(task, nr, runner.RealRunner?)],
                 begun := s.begun + [Begun(task, s.clock)]);
    if s.watching.NotYet? then s'
    else if runner.RealRunner? then s'.(pending := s.pending[task.path := Info(role, s.clock, false, nr)])
    else s'.(pending := s.pending - {task.path})
  }

  /** `_processNextDispatch` up to its first await. */
  function ProcessNext(s: State, role: Role, runner: Runner): State
  {
    if role in s.dispatching || At(s.queues, role) == [] || !s.polling then s
    else Begin(s.(queues := s.queues[role := s.queues[role][1..]]), role, s.queues[role][0], runner)
  }

  /** The task joins the queue of its role. */
  function Accept(s: State, task: Task): State
  {
    s.(inFlightPaths := s.inFlightPaths + {task.path},
       queues := s.queues[task.role := At(s.queues, task.role) + [task]],
       accepted := s.accepted[task.role := At(s.accepted, task.role) + [task]])
  }

  function EnqueueStep(s: State, task: Task, runner: Runner): State
  {
    if task.path in s.inFlightPaths then s else ProcessNext(Accept(s, task), task.role, runner)
  }

  /** The first poller is registered; the tasks queued so far stay where they are. */
  function RegisterStep(s: State): State
  {
    if s.polling then s else s.(polling := true, early := s.accepted)
  }

  function Forget(s: State, path: Path): State
  {
    if s.watching.Since? then s.(pending := s.pending - {path}) else s
  }

  /** The runner has answered and "dispatched" is emitted; the log and the task file come next. */
  function AnsweredStep(s: State, role: Role): State
  {
    if role !in s.dispatching || !s.dispatching[role].running then s
    else Forget(s.(dispatching := s.dispatching[role := s.dispatching[role].(running := false)]),
                s.dispatching[role].task.path)
  }

  /** The role is free again. */
  function Free(s: State, role: Role, failed: bool): State
    requires role in s.dispatching
  {
    var task := s.dispatching[role].task;
    var told := if failed then Forget(s, task.path) else s;
    told.(inFlightPaths := s.inFlightPaths - {task.path},
          dispatching := s.dispatching - {role},
          finished := s.finished[role := At(s.finished, role) + [task]])
  }

  /** The `catch` and `finally` of `_processNextDispatch`. */
  function CompleteStep(s: State, role: Role, failed: bool, next: Runner): State
  {
    if role !in s.dispatching || (s.dispatching[role].running && !failed) then s
    else ProcessNext(Free(s, role, failed), role, next)
  }

  // ---- the steps of the supervisor ------------------------------------------------------------

  /** `agent.sla_seconds`, if the agent is known and has one, and the default in milliseconds. */
  datatype Slas = Slas(seconds: map<Role, real>, defaultMs: real)

  function SlaFor(slas: Slas, role: Role): real
  {
    if role in slas.seconds && slas.seconds[role] > 0.0 then slas.seconds[role] * 1000.0 else slas.defaultMs
  }

  predicate Overdue(slas: Slas, info: Info, now: int)
  {
    (now - info.startedAt) as real > SlaFor(slas, info.role)
  }

  /** `ms` is more than the seconds the agent of the role is given, if it is given any, and more than the default
      if not. */
  predicate PastLimit(slas: Slas, role: Role, ms: int)
  {
    && (role in slas.seconds && slas.seconds[role] > 0.0 ==> ms as real / 1000.0 > slas.seconds[role])
    && (role !in slas.seconds || slas.seconds[role] <= 0.0 ==> ms as real > slas.defaultMs)
  }

  lemma OverdueMeans(slas: Slas, info: Info, now: int)
    ensures Overdue(slas, info, now) <==> PastLimit(slas, info.role, now - info.startedAt)
  {
  }

  /** One turn of the loop in `tick`; nothing runs between its test and its mark. */
  function VisitStep(slas: Slas, s: State, tick: nat, path: Path): State
  {
    if tick !in s.ticks || path !in s.pending then s
    else
      var info := s.pending[path];
      if info.alerted || !Overdue(slas, info, s.ticks[tick]) then s
      else s.(pending := s.pending[path := info.(alerted := true)],
              alerts := s.alerts + [Alert(info.nr, s.ticks[tick])])
  }

  /** `Supervisor.start`. */
  function WatchStep(s: State): State
  {
    if s.watching.Since? then s else s.(watching := Since(|s.begun|))
  }

  function Next(slas: Slas, s: State, step: Step): State
  {
    match step
    case Enqueue(task, runner) => EnqueueStep(s, task, runner)
    case Answered(role) => AnsweredStep(s, role)
    case Complete(role, failed, next) => CompleteStep(s, role, failed, next)
    case Register => RegisterStep(s)
    case Watch => WatchStep(s)
    case Advance(ms) => s.(clock := s.clock + ms)
    case StartTick(tick) => s.(ticks := s.ticks[tick := s.clock])
    case Visit(tick, path) => VisitStep(slas, s, tick, path)
  }

  function Run(slas: Slas, s: State, steps: seq<Step>): State
    decreases |steps|
  {
    if steps == [] then s else Next(slas, Run(slas, s, steps[..|steps| - 1]), steps[|steps| - 1])
  }

  // ---- the objects ----------------------------------------------------------------------------

  class Supervisor {
    const slas: Slas
    var pending: map<Path, Info>
    var watching: Listening
    ghost var alerts: seq<Alert>

    constructor (slas: Slas)
      ensures this.slas == slas && pending == map[] && watching == NotYet && alerts == []
    {
      this.slas, pending, watching, alerts := slas, map[], NotYet, [];
    }

    method Start(nr: nat)
      modifies this
      ensures watching == if old(watching).Since? then old(watching) else Since(nr)
      ensures pending == old(pending) && alerts == old(alerts)
    {
      if watching.NotYet? {
        watching := Since(nr);
      }
    }

    method OnStarted(task: Task, clock: int, nr: nat)
      modifies this
      ensures pending ==
              if watching.Since? then old(pending)[task.path := Info(task.role, clock, false, nr)] else old(pending)
      ensures watching == old(watching) && alerts == old(alerts)
    {
      if watching.Since? {
        pending := pending[task.path := Info(task.role, clock, false, nr)];
      }
    }

    method OnDone(path: Path)
      modifies this
      ensures pending == if watching.Since? then old(pending) - {path} else old(pending)
      ensures watching == old(watching) && alerts == old(alerts)
    {
      if watching.Since? {
        pending := pending - {path};
      }
    }

    /** A tick in which no append takes time: it marks and reports exactly the overdue dispatches. */
    method Tick(now: int)
      modifies this
      ensures pending.Keys == old(pending.Keys) && watching == old(watching)
      ensures forall p :: p in pending ==>
                p in old(pending) && pending[p] == AfterTick(slas, old(pending)[p], now)
      ensures old(alerts) <= alerts
      ensures AlertsFor(slas, old(pending), now, old(pending.Keys), alerts[|old(alerts)|..])
    {
      ghost var was, before, reported: seq<Alert> := pending, alerts, [];
      hide AlertsFor, Overdue, AfterTick, PastLimit, MarkedFor;
      var todo := pending.Keys;
      ghost var done: set<Path> := {};
      NothingDone(slas, was, now);
      while todo != {}
        invariant done + todo == was.Keys == pending.Keys && done !! todo
        invariant watching == old(watching) && alerts == before + reported
        invariant MarkedFor(slas, was, now, done, pending) && AlertsFor(slas, was, now, done, reported)
        decreases |todo|
      {
        var path :| path in todo;
        todo := todo - {path};
        var info := pending[path];
        OneMoreDone(slas, was, now, done, path, pending, reported);
        OverdueMeans(slas, info, now);
        done := done + {path};
        if !info.alerted && Overdue(slas, info, now) {
          pending := pending[path := info.(alerted := true)];
          alerts := alerts + [Alert(info.nr, now)];
          reported := reported + [Alert(info.nr, now)];
        }
      }
      AllDone(slas, was, now, pending);
    }
  }

  /** An entry after a tick: marked if it was or is past its limit, and otherwise the same. */
  function AfterTick(slas: Slas, info: Info, now: int): Info
  {
    info.(alerted := info.alerted || PastLimit(slas, info.role, now - info.startedAt))
  }

  /** The entries of `done` are as after a tick, the others as before it. */
  ghost predicate MarkedFor(slas: Slas, was: map<Path, Info>, now: int, done: set<Path>, pending: map<Path, Info>)
  {
    && pending.Keys == was.Keys
    && forall p :: p in was ==> pending[p] == if p in done then AfterTick(slas, was[p], now) else was[p]
  }

  /** These are the alerts for the dispatches of `done` that were overdue and not reported before. */
  ghost predicate AlertsFor(slas: Slas, was: map<Path, Info>, now: int, done: set<Path>, alerts: seq<Alert>)
  {
    forall a :: a in alerts <==> exists p :: p in done && DueAs(slas, was, now, p, a)
  }

  predicate DueAs(slas: Slas, was: map<Path, Info>, now: int, p: Path, a: Alert)
  {
    p in was && !was[p].alerted && PastLimit(slas, was[p].role, now - was[p].startedAt) && a == Alert(was[p].nr, now)
  }

  lemma NothingDone(slas: Slas, was: map<Path, Info>, now: int)
    ensures MarkedFor(slas, was, now, {}, was) && AlertsFor(slas, was, now, {}, [])
  {
  }

  lemma AllDone(slas: Slas, was: map<Path, Info>, now: int, pending: map<Path, Info>)
    requires MarkedFor(slas, was, now, was.Keys, pending)
    ensures pending.Keys == was.Keys && forall p :: p in pending ==> pending[p] == AfterTick(slas, was[p], now)
  {
  }

  lemma OneMoreDone(slas: Slas, was: map<Path, Info>, now: int, done: set<Path>, path: Path,
                    pending: map<Path, Info>, alerts: seq<Alert>)
    requires path in was && path !in done
    requires MarkedFor(slas, was, now, done, pending) && AlertsFor(slas, was, now, done, alerts)
    ensures
      var info := was[path];
      && pending[path] == info
      && if !info.alerted && PastLimit(slas, info.role, now - info.startedAt) then
           && MarkedFor(slas, was, now, done + {path}, pending[path := info.(alerted := true)])
           && AlertsFor(slas, was, now, done + {path}, alerts + [Alert(info.nr, now)])
         else
           MarkedFor(slas, was, now, done + {path}, pending) && AlertsFor(slas, was, now, done + {path}, alerts)
  {
    hide PastLimit;
    forall a
      ensures (exists p :: p in done + {path} && DueAs(slas, was, now, p, a)) <==>
              (exists p :: p in done && DueAs(slas, was, now, p, a)) || DueAs(slas, was, now, path, a)
    {
      assert path in done + {path};
    }
  }

  class CompanyRuntime {
    const supervisor: Supervisor
    var dispatchQueues: map<Role, seq<Task>>
    var dispatching: map<Role, Dispatch>
    var inFlightPaths: set<Path>
    var polling: bool
    var clock: int
    ghost var ticks: map<nat, int>
    ghost var early: map<Role, seq<Task>>
    ghost var accepted: map<Role, seq<Task>>
    var begun: seq<Begun>
    ghost var finished: map<Role, seq<Task>>

    constructor (supervisor: Supervisor, clock: int)
      requires supervisor.pending == map[] && supervisor.watching == NotYet && supervisor.alerts == []
      ensures this.supervisor == supervisor && this.clock == clock
      ensures Init(Model())
    {
      this.supervisor, this.clock := supervisor, clock;
      dispatchQueues, dispatching, inFlightPaths, polling := map[], map[], {}, false;
      ticks, early, accepted, begun, finished := map[], map[], map[], [], map[];
    }

    ghost function Model(): State
      reads this, supervisor
    {
      State(dispatchQueues, dispatching, inFlightPaths, polling, supervisor.pending, supervisor.watching, clock, ticks,
            early, accepted, begun, finished, supervisor.alerts)
    }

    method RegisterPoller()
      modifies this
      ensures Model() == RegisterStep(old(Model()))
    {
      if !polling {
        early := accepted;
      }
      polling := true;
    }

    method EnqueueDispatch(task: Task, runner: Runner)
      modifies this, supervisor
      ensures Model() == EnqueueStep(old(Model()), task, runner)
    {
      if task.path in inFlightPaths {
        return;
      }
      inFlightPaths := inFlightPaths + {task.path};
      dispatchQueues := dispatchQueues[task.role := At(dispatchQueues, task.role) + [task]];
      accepted := accepted[task.role := At(accepted, task.role) + [task]];
      assert Model() == Accept(old(Model()), task);
      hide ProcessNext, Accept, At;
      ProcessNextDispatch(task.role, runner);
    }

    method ProcessNextDispatch(role: Role, runner: Runner)
      modifies this, supervisor
      ensures Model() == ProcessNext(old(Model()), role, runner)
    {
      if role in dispatching || role !in dispatchQueues || |dispatchQueues[role]| == 0 {
        return;
      }
      if !polling {
        return;
      }
      var task := dispatchQueues[role][0];
      dispatchQueues := dispatchQueues[role := dispatchQueues[role][1..]];
      begun := begun + [Begun(task, clock)];
      dispatching := dispatching[role := Dispatch(task, |begun| - 1, runner.RealRunner?)];
      if runner.RealRunner? {
        supervisor.OnStarted(Task(task.path, role), clock, |begun| - 1);
      } else {
        supervisor.OnDone(task.path);
      }
    }

    method DispatchAnswered(role: Role)
      requires role in dispatching && dispatching[role].running
      modifies this, supervisor
      ensures Model() == AnsweredStep(old(Model()), role)
    {
      var dispatch := dispatching[role];
      dispatching := dispatching[role := dispatch.(running := false)];
      supervisor.OnDone(dispatch.task.path);
    }

    /** The dispatch of `role` has returned or thrown. */
    method DispatchSettled(role: Role, failed: bool, next: Runner)
      requires role in dispatching && (dispatching[role].running ==> failed)
      modifies this, supervisor
      ensures Model() == CompleteStep(old(Model()), role, failed, next)
    {
      var task := dispatching[role].task;
      if failed {
        supervisor.OnDone(task.path);
      }
      inFlightPaths := inFlightPaths - {task.path};
      dispatching := dispatching - {role};
      finished := finished[role := At(finished, role) + [task]];
      ProcessNextDispatch(role, next);
    }
  }
}
