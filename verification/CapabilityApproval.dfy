/** `CapabilityApprovalService`: requests for approval that wait for a decision or a timeout, and what the
    runtime makes of the answer. */
module CapabilityApproval {
  import opened Options
  import opened CapabilityGate

  type Id = string

  /** A decision as callers pass it; `resolve` does not look at it. */
  datatype Decision = Approved | Denied | Escalated | Unknown(text: string)

  datatype Policy = Deny | RetryOnce | EscalateToCeo | OtherPolicy(text: string)

  function DecisionForTimeout(policy: Policy): Decision
  {
    match policy
    case Deny => Denied
    case RetryOnce => Denied
    case EscalateToCeo => Escalated
    case OtherPolicy(_) => Denied
  }

  /** The parts of an agent's spec that matter here. */
  datatype Agent = Agent(onTimeout: Policy, escalateTo: Option<string>, reportsTo: Option<string>)

  function EscalationTarget(agent: Agent): string
  {
    if agent.escalateTo.Some? then agent.escalateTo.value
    else if agent.reportsTo.Some? then agent.reportsTo.value
    else "ceo"
  }

  datatype Settlement = Settlement(decision: Decision, actor: string, escalateTo: Option<string>)

  function TimeoutSettlement(agent: Agent): Settlement
  {
    var decision := DecisionForTimeout(agent.onTimeout);
    Settlement(decision, "timeout", if decision.Escalated? then Some(EscalationTarget(agent)) else None)
  }

  /** What a timeout comes to: an escalation, to whom the agent's spec names first, if the policy asks for one, and
      otherwise a denial. */
  lemma TimeoutMeans(agent: Agent)
    ensures
      var s := TimeoutSettlement(agent);
      && s.actor == "timeout"
      && (agent.onTimeout == EscalateToCeo ==>
            && s.decision == Escalated && s.escalateTo.Some?
            && (agent.escalateTo.Some? ==> s.escalateTo == agent.escalateTo)
            && (agent.escalateTo.None? && agent.reportsTo.Some? ==> s.escalateTo == agent.reportsTo)
            && (agent.escalateTo.None? && agent.reportsTo.None? ==> s.escalateTo == Some("ceo")))
      && (agent.onTimeout != EscalateToCeo ==> s.decision == Denied && s.escalateTo == None)
  {
  }

  /** Where a request is: before its entry in `pending`, waiting in it, settled, or rejected before it got in. */
  datatype Stage = Creating | Waiting | Settled(settlement: Settlement) | Rejected

  datatype Request = Request(agent: Agent, stage: Stage)

  /** An attempt to settle a request that was not rejected, in order of arrival; `early` if it came between the
      request's event, which makes its id known, and its entry in `pending`. */
  datatype Attempt = Attempt(id: Id, settlement: Settlement, early: bool)

  /** `pending` and the armed timers are the service's; `requests` (the promises handed out) and `attempts`
      are history. */
  datatype State = State(pending: set<Id>, timers: set<Id>, requests: map<Id, Request>, attempts: seq<Attempt>)

  datatype Step =
    | Create(id: Id, agent: Agent)
    | Register(id: Id)
    | Abandon(id: Id)
    | Decide(id: Id, decision: Decision, actor: string)
    | TransportAnswers(id: Id, answer: Decision)
    | TimerFires(id: Id)

  predicate Init(s: State)
  {
    s == State({}, {}, map[], [])
  }

  /** `requestId` is a fresh one. */
  predicate Allowed(s: State, step: Step)
  {
    step.Create? ==> step.id !in s.requests
  }

  predicate At(s: State, id: Id, stage: Stage)
  {
    id in s.requests && s.requests[id].stage == stage
  }

  /** The promise of a request is resolved; a promise settles once. */
  function Resolved(requests: map<Id, Request>, id: Id, settlement: Settlement): map<Id, Request>
  {
    if id in requests && !requests[id].stage.Settled?
    then requests[id := requests[id].(stage := Settled(settlement))] else requests
  }

  function Tried(s: State, id: Id, settlement: Settlement): seq<Attempt>
  {
    if id in s.requests && !s.requests[id].stage.Rejected?
    then s.attempts + [Attempt(id, settlement, s.requests[id].stage.Creating?)] else s.attempts
  }

  /** `resolve`, true if the request was pending. */
  function ResolveStep(s: State, id: Id, decision: Decision, actor: string): (State, bool)
  {
    var settlement := Settlement(decision, actor, None);
    var s' := s.(attempts := Tried(s, id, settlement));
    if id !in s.pending then (s', false)
    else
      var requests' := Resolved(s.requests, id, settlement);
      (s'.(pending := s.pending - {id}, timers := s.timers - {id}, requests := requests'), true)
  }

  function TimerStep(s: State, id: Id): State
  {
    if id !in s.timers || id !in s.requests then s
    else
      var settlement := TimeoutSettlement(s.requests[id].agent);
      var s' := s.(timers := s.timers - {id}, attempts := Tried(s, id, settlement));
      if id !in s.pending then s'
      else s'.(pending := s.pending - {id}, requests := Resolved(s.requests, id, settlement))
  }

  function Next(s: State, step: Step): State
  {
    match step
    case Create(id, agent) => s.(requests := s.requests[id := Request(agent, Creating)])
    case Register(id) =>
      if !At(s, id, Creating) then s
      else State(s.pending + {id}, s.timers + {id}, s.requests[id := s.requests[id].(stage := Waiting)], s.attempts)
    case Abandon(id) =>
      if !At(s, id, Creating) then s else s.(requests := s.requests[id := s.requests[id].(stage := Rejected)])
    case Decide(id, decision, actor) => ResolveStep(s, id, decision, actor).0
    case TransportAnswers(id, answer) =>
      if answer.Approved? || answer.Denied? then ResolveStep(s, id, answer, "acp").0 else s
    case TimerFires(id) => TimerStep(s, id)
  }

  function Run(s: State, steps: seq<Step>): State
    decreases |steps|
  {
    if steps == [] then s else Next(Run(s, steps[..|steps| - 1]), steps[|steps| - 1])
  }

  predicate AllAllowed(s: State, steps: seq<Step>)
  {
    forall n :: 0 <= n < |steps| ==> Allowed(Run(s, steps[..n]), steps[n])
  }

  // ---- the object -------------------------------------------------------------------------------

  class CapabilityApprovalService {
    var pending: set<Id>
    var timers: set<Id>
    var requests: map<Id, Request>
    ghost var attempts: seq<Attempt>

    constructor ()
      ensures Init(Model())
    {
      pending, timers, requests, attempts := {}, {}, map[], [];
    }

    ghost function Model(): State
      reads this
    {
      State(pending, timers, requests, attempts)
    }

    /** `requestApproval` up to the event store's answer. */
    method RequestApproval(id: Id, agent: Agent)
      requires id !in requests
      modifies this
      ensures Model() == Next(old(Model()), Create(id, agent))
    {
      requests := requests[id := Request(agent, Creating)];
    }

    /** The executor of the promise it returns. */
    method Wait(id: Id)
      requires id in requests && requests[id].stage.Creating?
      modifies this
      ensures Model() == Next(old(Model()), Register(id))
    {
      timers := timers + {id};
      pending := pending + {id};
      requests := requests[id := requests[id].(stage := Waiting)];
    }

    method Resolve(id: Id, decision: Decision, actor: string) returns (wasPending: bool)
      modifies this
      ensures (Model(), wasPending) == ResolveStep(old(Model()), id, decision, actor)
      ensures wasPending <==> id in old(pending)
    {
      var settlement := Settlement(decision, actor, None);
      attempts := Tried(Model(), id, settlement);
      if id !in pending {
        return false;
      }
      timers := timers - {id};
      pending := pending - {id};
      requests := Resolved(requests, id, settlement);
      return true;
    }

    method OnTimer(id: Id)
      requires id in timers && id in requests
      modifies this
      ensures Model() == TimerStep(old(Model()), id)
    {
      var settlement := TimeoutSettlement(requests[id].agent);
      attempts := Tried(Model(), id, settlement);
      timers := timers - {id};
      if id !in pending {
        return;
      }
      pending := pending - {id};
      requests := Resolved(requests, id, settlement);
    }
  }

  // ---- invariants -------------------------------------------------------------------------------

  /** The first attempt to settle a request, of all or of those made since it is registered. */
  function FirstAttempt(attempts: seq<Attempt>, id: Id, registered: bool): Option<Attempt>
  {
    if attempts == [] then None
    else
      var earlier, last := FirstAttempt(attempts[..|attempts| - 1], id, registered), attempts[|attempts| - 1];
      if earlier.Some? then earlier
      else if last.id == id && !(registered && last.early) then Some(last)
      else None
  }

  /** What the stage of a request says. */
  predicate RequestOk(s: State, id: Id)
  {
    var first := FirstAttempt(s.attempts, id, true);
    && (id in s.pending <==> At(s, id, Waiting))
    && (id in s.timers <==> At(s, id, Waiting))
    && first ==
        (if id in s.requests && s.requests[id].stage.Settled?
         then Some(Attempt(id, s.requests[id].stage.settlement, false)) else None)
  }

  ghost predicate Inv(s: State)
  {
    forall id :: RequestOk(s, id)
  }

  lemma FirstAfter(attempts: seq<Attempt>, a: Attempt, id: Id, registered: bool)
    ensures FirstAttempt(attempts + [a], id, registered) ==
            if FirstAttempt(attempts, id, registered).Some? then FirstAttempt(attempts, id, registered)
            else if a.id == id && !(registered && a.early) then Some(a) else None
  {
    assert (attempts + [a])[..|attempts|] == attempts;
  }

  lemma FirstAfterTry(s: State, tried: Id, settlement: Settlement, id: Id)
    ensures
      var first := FirstAttempt(s.attempts, id, true);
      FirstAttempt(Tried(s, tried, settlement), id, true) ==
      if first.None? && tried == id && id in s.requests
          && (s.requests[id].stage.Waiting? || s.requests[id].stage.Settled?)
      then Some(Attempt(id, settlement, false)) else first
  {
    if tried in s.requests {
      FirstAfter(s.attempts, Attempt(tried, settlement, s.requests[tried].stage.Creating?), id, true);
    }
    hide FirstAttempt;
  }

  lemma ResolveKeepsInv(s: State, id: Id, decision: Decision, actor: string, other: Id)
    requires RequestOk(s, other) && RequestOk(s, id)
    ensures RequestOk(ResolveStep(s, id, decision, actor).0, other)
  {
    FirstAfterTry(s, id, Settlement(decision, actor, None), other);
    hide FirstAttempt, Tried;
  }

  lemma TimerKeepsInv(s: State, id: Id, other: Id)
    requires RequestOk(s, other) && RequestOk(s, id)
    ensures RequestOk(TimerStep(s, id), other)
  {
    if id in s.timers && id in s.requests {
      var settlement := TimeoutSettlement(s.requests[id].agent);
      FirstAfterTry(s, id, settlement, other);
      hide FirstAttempt, Tried, TimeoutSettlement;
      assert id in s.pending && s.requests[id].stage == Waiting;
      var s' := TimerStep(s, id);
      assert s' == State(s.pending - {id}, s.timers - {id},
                         s.requests[id := s.requests[id].(stage := Settled(settlement))], Tried(s, id, settlement));
      hide TimerStep, RequestOk;
      SettledNow(s, s', id, settlement, other);
    }
  }

  lemma SettledNow(s: State, s': State, id: Id, settlement: Settlement, other: Id)
    requires RequestOk(s, other) && id in s.requests && s.requests[id].stage == Waiting
    requires s'.pending == s.pending - {id} && s'.timers == s.timers - {id}
    requires s'.requests == s.requests[id := s.requests[id].(stage := Settled(settlement))]
    requires FirstAttempt(s'.attempts, other, true) ==
             if FirstAttempt(s.attempts, other, true).None? && id == other then Some(Attempt(id, settlement, false))
             else FirstAttempt(s.attempts, other, true)
    ensures RequestOk(s', other)
  {
    hide FirstAttempt;
  }

  lemma NextKeepsInv(s: State, step: Step)
    requires Inv(s) && Allowed(s, step)
    ensures Inv(Next(s, step))
  {
    forall other
      ensures RequestOk(Next(s, step), other)
    {
      assert RequestOk(s, other) && RequestOk(s, step.id);
      hide FirstAttempt, ResolveStep, TimerStep, Inv;
      match step
      case Decide(id, decision, actor) => ResolveKeepsInv(s, id, decision, actor, other);
      case TransportAnswers(id, answer) => ResolveKeepsInv(s, id, answer, "acp", other);
      case TimerFires(id) => TimerKeepsInv(s, id, other);
      case _ =>
    }
  }

  lemma AllowedBefore(s: State, steps: seq<Step>)
    requires steps != [] && AllAllowed(s, steps)
    ensures AllAllowed(s, steps[..|steps| - 1])
  {
    var shorter := steps[..|steps| - 1];
    assert forall n :: 0 <= n < |shorter| ==> shorter[..n] == steps[..n] && shorter[n] == steps[n];
  }

  lemma {:induction false} RunKeepsInv(init: State, steps: seq<Step>)
    requires Init(init) && AllAllowed(init, steps)
    ensures Inv(Run(init, steps))
    decreases |steps|
  {
    if steps != [] {
      var shorter := steps[..|steps| - 1];
      AllowedBefore(init, steps);
      RunKeepsInv(init, shorter);
      assert Allowed(Run(init, shorter), steps[|steps| - 1]);
      hide Inv, Next, AllAllowed, Allowed;
      NextKeepsInv(Run(init, shorter), steps[|steps| - 1]);
    }
  }

  /** What a transport says counts like a decision if it approves or denies, and else for nothing. */
  lemma TransportMeans(s: State, id: Id, answer: Decision)
    ensures answer == Approved || answer == Denied ==>
              Next(s, TransportAnswers(id, answer)) == Next(s, Decide(id, answer, "acp"))
    ensures answer != Approved && answer != Denied ==> Next(s, TransportAnswers(id, answer)) == s
  {
  }

  // ---- what it comes to -------------------------------------------------------------------------

  /** Whatever the order of decisions, transport answers and timeouts: `pending` and the armed timers are the
      requests that wait, and a settled request was settled by the first attempt since it was registered. */
  lemma SettledByTheFirst(init: State, steps: seq<Step>, id: Id)
    requires Init(init) && AllAllowed(init, steps)
    ensures
      var s := Run(init, steps);
      && (id in s.pending <==> At(s, id, Waiting))
      && s.timers == s.pending
      && (id in s.requests && s.requests[id].stage.Settled? ==>
            FirstAttempt(s.attempts, id, true) == Some(Attempt(id, s.requests[id].stage.settlement, false)))
      && (At(s, id, Waiting) ==> FirstAttempt(s.attempts, id, true) == None)
  {
    RunKeepsInv(init, steps);
    var s := Run(init, steps);
    hide Run, FirstAttempt;
    assert RequestOk(s, id);
    assert forall other :: RequestOk(s, other) ==> (other in s.timers <==> other in s.pending);
  }

  predicate AnsweredEarly(attempts: seq<Attempt>, id: Id)
  {
    exists k :: 0 <= k < |attempts| && attempts[k].id == id && attempts[k].early
  }

  /** The first answer of all decides. */
  predicate FirstAnswerWins(s: State, id: Id)
    requires id in s.requests && s.requests[id].stage.Settled?
  {
    FirstAttempt(s.attempts, id, false) == Some(Attempt(id, s.requests[id].stage.settlement, false))
  }

  /** Which answer decides: the first of all, exactly if none came before the request was registered. */
  lemma FirstAnswerWinsIff(init: State, steps: seq<Step>, id: Id)
    requires Init(init) && AllAllowed(init, steps)
    ensures
      var s := Run(init, steps);
      id in s.requests && s.requests[id].stage.Settled? ==>
        (FirstAnswerWins(s, id) <==> !AnsweredEarly(s.attempts, id))
  {
    RunKeepsInv(init, steps);
    RunKeepsEarlyFirst(init, steps, id);
    var s := Run(init, steps);
    assert RequestOk(s, id);
    hide Run, FirstAttempt;
    FirstsAgree(s.attempts, id);
  }

  /** The early attempts for a request are ahead of all others. */
  predicate EarlyFirst(attempts: seq<Attempt>, id: Id)
  {
    FirstAttempt(attempts, id, false).Some? && !FirstAttempt(attempts, id, false).value.early ==>
      !AnsweredEarly(attempts, id)
  }

  /** ... and so the first of all is the first since the registration exactly if there are none. */
  lemma {:induction false} FirstsAgree(attempts: seq<Attempt>, id: Id)
    ensures !AnsweredEarly(attempts, id) ==> FirstAttempt(attempts, id, false) == FirstAttempt(attempts, id, true)
    ensures FirstAttempt(attempts, id, false).None? ==> !AnsweredEarly(attempts, id)
    ensures FirstAttempt(attempts, id, true).Some? &&
            FirstAttempt(attempts, id, false) == FirstAttempt(attempts, id, true) ==>
              !FirstAttempt(attempts, id, false).value.early
    decreases |attempts|
  {
    if attempts != [] {
      var earlier, last := attempts[..|attempts| - 1], attempts[|attempts| - 1];
      FirstsAgree(earlier, id);
      assert earlier + [last] == attempts;
      AnsweredEarlyAfter(earlier, last, id);
    }
  }

  lemma AnsweredEarlyAfter(attempts: seq<Attempt>, a: Attempt, id: Id)
    ensures AnsweredEarly(attempts + [a], id) <==> AnsweredEarly(attempts, id) || (a.id == id && a.early)
  {
    if k :| 0 <= k < |attempts| && attempts[k].id == id && attempts[k].early {
      assert (attempts + [a])[k] == attempts[k];
    }
    assert (attempts + [a])[|attempts|] == a;
  }

  lemma TryKeepsEarlyFirst(s: State, tried: Id, settlement: Settlement, id: Id)
    requires RequestOk(s, id) && EarlyFirst(s.attempts, id)
    ensures EarlyFirst(Tried(s, tried, settlement), id)
  {
    if tried in s.requests {
      var a := Attempt(tried, settlement, s.requests[tried].stage.Creating?);
      FirstAfter(s.attempts, a, id, false);
      AnsweredEarlyAfter(s.attempts, a, id);
      FirstsAgree(s.attempts, id);
      hide FirstAttempt, AnsweredEarly;
    }
  }

  lemma NextKeepsEarlyFirst(s: State, step: Step, id: Id)
    requires RequestOk(s, id) && EarlyFirst(s.attempts, id)
    ensures EarlyFirst(Next(s, step).attempts, id)
  {
    hide RequestOk, EarlyFirst, Tried, Resolved;
    match step
    case Decide(tried, decision, actor) => TryKeepsEarlyFirst(s, tried, Settlement(decision, actor, None), id);
    case TransportAnswers(tried, answer) => TryKeepsEarlyFirst(s, tried, Settlement(answer, "acp", None), id);
    case TimerFires(tried) =>
      if tried in s.requests {
        TryKeepsEarlyFirst(s, tried, TimeoutSettlement(s.requests[tried].agent), id);
      }
    case _ =>
  }

  lemma {:induction false} RunKeepsEarlyFirst(init: State, steps: seq<Step>, id: Id)
    requires Init(init) && AllAllowed(init, steps)
    ensures EarlyFirst(Run(init, steps).attempts, id)
    decreases |steps|
  {
    if steps != [] {
      var shorter := steps[..|steps| - 1];
      AllowedBefore(init, steps);
      RunKeepsEarlyFirst(init, shorter, id);
      RunKeepsInv(init, shorter);
      assert RequestOk(Run(init, shorter), id);
      hide RequestOk, EarlyFirst, Next, AllAllowed, Inv;
      NextKeepsEarlyFirst(Run(init, shorter), steps[|steps| - 1], id);
    }
  }

  /** An approval given as soon as the request's event is out is lost: the request goes on waiting, and its
      timeout decides. */
  lemma EarlyApprovalIsLost(init: State, id: Id, agent: Agent, actor: string)
    requires Init(init)
    ensures
      var created := Next(init, Create(id, agent));
      var (s, wasPending) := ResolveStep(created, id, Approved, actor);
      && !wasPending
      && At(Next(s, Register(id)), id, Waiting)
      && At(Next(Next(s, Register(id)), TimerFires(id)), id, Settled(TimeoutSettlement(agent)))
  {
  }

  predicate SettledWith(s: State, id: Id, settlement: Settlement)
  {
    At(s, id, Settled(settlement))
  }

  /** ... and stays settled that way: nothing later changes the answer or is accepted. */
  lemma {:induction false} SettledForGood(s: State, more: seq<Step>, id: Id, settlement: Settlement)
    requires SettledWith(s, id, settlement) && AllAllowed(s, more)
    ensures SettledWith(Run(s, more), id, settlement)
    decreases |more|
  {
    if more != [] {
      var shorter := more[..|more| - 1];
      AllowedBefore(s, more);
      SettledForGood(s, shorter, id, settlement);
      assert Allowed(Run(s, shorter), more[|more| - 1]);
      hide Run, AllAllowed;
      NextKeepsSettled(Run(s, shorter), more[|more| - 1], id, settlement);
    }
  }

  lemma NextKeepsSettled(s: State, step: Step, id: Id, settlement: Settlement)
    requires SettledWith(s, id, settlement) && Allowed(s, step)
    ensures SettledWith(Next(s, step), id, settlement)
  {
    hide Tried, TimeoutSettlement;
  }

  // ---- authorizeWithApproval --------------------------------------------------------------------

  /** The answer to request `id`, if there is one yet. */
  function AnswerTo(s: State, id: Id): Option<Settlement>
  {
    if id in s.requests && s.requests[id].stage.Settled? then Some(s.requests[id].stage.settlement) else None
  }

  /** Whether the runtime lets a role use a capability; `approval` is the answer to the request it makes for
      this use if the gate asks for one, and it waits until there is one. */
  function AuthorizeWithApproval(agents: map<string, seq<string>>, role: string, capability: string,
                                 approval: Option<Settlement>): bool
  {
    var gate := Authorize(agents, role, capability);
    if !gate.allowed || !gate.requiresApproval then gate.allowed
    else approval.Some? && approval.value.decision.Approved?
  }

  /** Every "approved" in the history of attempts was asked for by `resolve` or a transport; a timeout never
      approves. */
  predicate ApprovedByAnswer(step: Step, id: Id)
  {
    || (step.Decide? && step.id == id && step.decision.Approved?)
    || (step.TransportAnswers? && step.id == id && step.answer.Approved?)
  }

  lemma {:induction false} ApprovalsWereGiven(init: State, steps: seq<Step>, id: Id)
    requires Init(init)
    ensures
      (exists k :: 0 <= k < |Run(init, steps).attempts| && Run(init, steps).attempts[k].id == id
                   && Run(init, steps).attempts[k].settlement.decision.Approved?) ==>
      exists n :: 0 <= n < |steps| && ApprovedByAnswer(steps[n], id)
    decreases |steps|
  {
    if steps != [] {
      var shorter, last := steps[..|steps| - 1], steps[|steps| - 1];
      ApprovalsWereGiven(init, shorter, id);
      var s, s' := Run(init, shorter), Run(init, steps);
      assert s' == Next(s, last);
      hide Run;
      if k :| 0 <= k < |s'.attempts| && s'.attempts[k].id == id && s'.attempts[k].settlement.decision.Approved? {
        NewAttempt(s, last, id, k);
        if n :| 0 <= n < |shorter| && ApprovedByAnswer(shorter[n], id) {
          assert steps[n] == shorter[n];
        }
        assert ApprovedByAnswer(last, id) ==> ApprovedByAnswer(steps[|steps| - 1], id);
      }
    }
  }

  lemma NewAttempt(s: State, step: Step, id: Id, k: nat)
    requires
      var s' := Next(s, step);
      k < |s'.attempts| && s'.attempts[k].id == id && s'.attempts[k].settlement.decision.Approved?
    ensures (k < |s.attempts| && s.attempts[k] == Next(s, step).attempts[k]) || ApprovedByAnswer(step, id)
  {
  }

  lemma {:induction false} FirstIsAttempt(attempts: seq<Attempt>, id: Id)
    requires FirstAttempt(attempts, id, true).Some?
    ensures exists k :: 0 <= k < |attempts| && attempts[k] == FirstAttempt(attempts, id, true).value
                     && attempts[k].id == id
  {
    if FirstAttempt(attempts[..|attempts| - 1], id, true).Some? {
      FirstIsAttempt(attempts[..|attempts| - 1], id);
    } else {
      assert attempts[|attempts| - 1] == FirstAttempt(attempts, id, true).value;
    }
  }

  /** The rule the gate is there for: a capability (that is not the empty text) may be used exactly under a
      matching grant and, if it is sensitive, once the request is answered "approved"; and then somebody, not a
      timeout, gave that answer to this request. */
  lemma SensitiveNeedsApproval(init: State, steps: seq<Step>, id: Id, agents: map<string, seq<string>>,
                               role: string, capability: string)
    requires Init(init) && AllAllowed(init, steps)
    ensures
      var answer := AnswerTo(Run(init, steps), id);
      && (AuthorizeWithApproval(agents, role, capability, answer) <==>
            && role in agents && Granted(agents[role], capability)
            && (capability == "" ==> FindGrant(agents[role], capability) != Some(""))
            && (NeedsApproval(capability) ==> answer.Some? && answer.value.decision.Approved?))
      && (answer.Some? && answer.value.decision.Approved? ==>
            exists n :: 0 <= n < |steps| && ApprovedByAnswer(steps[n], id))
  {
    var s := Run(init, steps);
    hide Run, FirstAttempt, NeedsApproval, Granted, CheckCapability;
    if role in agents {
      GateMeans(agents[role], capability);
    }
    if AnswerTo(s, id).Some? {
      SettledByTheFirst(init, steps, id);
      FirstIsAttempt(s.attempts, id);
      ApprovalsWereGiven(init, steps, id);
    }
  }
}
