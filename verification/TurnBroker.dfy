/** `TurnBroker` over one session: the life of a turn between `startTurn` and its last write, the event log
    of the session, and the cached keep-alive runner with its idle timer.

    A step is the code between two awaits, or a few awaits nothing else can get between. Everything that may
    happen meanwhile is a step too: runners dying, the idle timer, `closeAllSessions`, the server going down. */
module TurnBroker {
  import opened Options

  // ---- the event log ----------------------------------------------------------------------------

  datatype Update = Chunk(text: string) | ToolCall | OtherUpdate

  datatype Event =
    | SessionUpdate(update: Update)
    | SessionReset
    | AssistantMessage(content: string)
    | Done
    | TurnFailed

  /** A line of the log, `open` while it lacks its newline. */
  datatype Line = Entry(seqNr: nat, event: Event, open: bool) | Torn(open: bool)

  predicate OpenEnd(log: seq<Line>)
  {
    log != [] && log[|log| - 1].open
  }

  /** `appendEvent`: on an open end the text runs together with what is there and does not parse. */
  function Append(log: seq<Line>, line: Line): seq<Line>
  {
    if OpenEnd(log) then log[..|log| - 1] + [Torn(line.open)] else log + [line]
  }

  /** `getLastEventSeq`. */
  function LastSeq(log: seq<Line>): nat
  {
    if log != [] && log[|log| - 1].Entry? then log[|log| - 1].seqNr else 0
  }

  /** `readEventsSince`. */
  function ReadSince(log: seq<Line>, since: nat): seq<Line>
  {
    if log == [] then []
    else
      var earlier, last := ReadSince(log[..|log| - 1], since), log[|log| - 1];
      if last.Entry? && last.seqNr > since then earlier + [last] else earlier
  }

  method ReadEventsSince(log: seq<Line>, since: nat) returns (out: seq<Line>)
    ensures out == ReadSince(log, since)
  {
    out := [];
    for i := 0 to |log|
      invariant out == ReadSince(log[..i], since)
    {
      assert log[..i + 1][..i] == log[..i];
      if log[i].Entry? {
        if log[i].seqNr > since {
          out := out + [log[i]];
        }
      }
    }
    assert log[..|log|] == log;
  }

  // ---- the state --------------------------------------------------------------------------------

  datatype Status = Fresh | Running | Completed | Failed | Interrupted

  /** An entry of `sessions`. */
  datatype Cached = Cached(runner: nat, idleTimer: bool)

  /** Where a turn stands; each phase names what it does next. */
  datatype Phase =
    | Resolving
    | Marking
    | Prompting
    | Replacing
    | Replying(content: string)
    | Ending
    | Failing
    | Settling(ok: bool)
    | Closing(ok: bool)

  /** The variables of a turn. `before` (the log it found), `events` (what it appended) and `answer` (how its last
      prompt ended) are history. */
  datatype Turn = Turn(
    before: seq<Line>,
    startSeq: nat,
    seqNr: nat,
    resumes: bool,
    runner: nat,
    keepAlive: bool,
    attempt: nat,
    assistantText: string,
    toolUseSinceLastText: bool,
    phase: Phase,
    events: seq<Event>,
    answer: Option<Answer>)

  datatype Record = Record(before: seq<Line>, startSeq: nat, events: seq<Event>, answer: Option<Answer>, ok: bool)

  /** `ended` is the turn that ended last, until another starts or the process goes down; it and `history`
      are bookkeeping. */
  datatype State = State(
    log: seq<Line>,
    status: Status,
    runningSinceSeq: Option<nat>,
    running: bool,
    cached: Option<Cached>,
    alive: set<nat>,
    made: nat,
    turn: Option<Turn>,
    ended: Option<Record>,
    history: seq<Record>)

  /** What the runner factory does: throw, or give a runner of either kind. */
  datatype Made = Broken | OneShot | KeepAlive

  /** How a prompt ends; `isError` covers the exit code, `expired` the "no conversation found" errors. */
  datatype Answer = Threw | Answered(isError: bool, expired: bool, text: string)

  /** Where a crash cuts off the write of an event: nowhere, inside its line, or just before the newline. */
  datatype Cut = NoCut | InLine | BeforeNewline(event: Event)

  datatype Step =
    | Start(resumes: bool)
    | Resolve(made: Made)
    | Mark
    | Receive(update: Update)
    | Finish(answer: Answer)
    | Reply
    | End
    | Fail
    | Settle
    | Close
    | Die(runner: nat)
    | IdleFires
    | CloseAll
    | Crash(cut: Cut)

  predicate Init(s: State)
  {
    && s.log == [] && s.status == Fresh && s.runningSinceSeq == None && !s.running
    && s.cached == None && s.alive == {} && s.made == 0 && s.turn == None && s.ended == None
    && s.history == []
  }

  // ---- text -------------------------------------------------------------------------------------

  predicate IsSpace(c: char)
  {
    c == ' ' || ('\t' <= c <= '\r') || c == '\U{00A0}' || c == '\U{FEFF}' || c == '\U{1680}'
    || ('\U{2000}' <= c <= '\U{200A}')
    || c == '\U{2028}' || c == '\U{2029}' || c == '\U{202F}' || c == '\U{205F}' || c == '\U{3000}'
  }

  function TrimStart(s: string): string
  {
    if s != "" && IsSpace(s[0]) then TrimStart(s[1..]) else s
  }

  function Trim(s: string): string
  {
    TrimEnd(TrimStart(s))
  }

  function TrimEnd(s: string): string
  {
    if s != "" && IsSpace(s[|s| - 1]) then TrimEnd(s[..|s| - 1]) else s
  }

  function WithUpdate(t: Turn, update: Update): Turn
  {
    match update
    case Chunk(text) =>
      var separator := if t.toolUseSinceLastText && t.assistantText != "" then "\n\n" else "";
      t.(assistantText := t.assistantText + separator + text, toolUseSinceLastText := false)
    case ToolCall => t.(toolUseSinceLastText := true)
    case OtherUpdate => t
  }

  function FinalText(text: string, answer: Answer): string
    requires answer.Answered?
  {
    if Trim(text) != "" then Trim(text) else if answer.text != "" then answer.text else "(keine Antwort)"
  }

  // ---- the steps --------------------------------------------------------------------------------

  /** The closure `append` of a turn. */
  function Log(s: State, t: Turn, event: Event): State
  {
    s.(log := Append(s.log, Entry(t.seqNr + 1, event, false)),
       turn := Some(t.(seqNr := t.seqNr + 1, events := t.events + [event])))
  }

  /** `_closeSession`. */
  function CloseSession(s: State): State
  {
    match s.cached
    case None => s
    case Some(c) => s.(cached := None, alive := s.alive - {c.runner})
  }

  function StartStep(s: State, resumes: bool): State
  {
    if s.running || s.turn.Some? then s
    else
      s.(turn := Some(Turn(s.log, LastSeq(s.log), LastSeq(s.log), resumes, 0, false, 1, "", false, Resolving, [],
                           None)),
         ended := None)
  }

  predicate Live(s: State)
  {
    s.cached.Some? && s.cached.value.runner in s.alive
  }

  /** `_resolveRunner`, followed by phase `next`; without a runner a turn that runs has failed, and one that
      has not started yet never does. */
  function ResolveStep(s: State, made: Made): State
  {
    if s.turn.None? || !(s.turn.value.phase.Resolving? || s.turn.value.phase.Replacing?) then s
    else
      var t := s.turn.value;
      var next := if t.phase.Resolving? then Marking else Prompting;
      if Live(s) then
        s.(cached := Some(s.cached.value.(idleTimer := false)),
           turn := Some(t.(runner := s.cached.value.runner, keepAlive := true, phase := next)))
      else
        match made
        case Broken => s.(cached := None, turn := if t.phase.Resolving? then None else Some(t.(phase := Failing)))
        case OneShot =>
          s.(cached := None, made := s.made + 1, alive := s.alive + {s.made},
             turn := Some(t.(runner := s.made, keepAlive := false, phase := next)))
        case KeepAlive =>
          s.(cached := Some(Cached(s.made, false)), made := s.made + 1, alive := s.alive + {s.made},
             turn := Some(t.(runner := s.made, keepAlive := true, phase := next)))
  }

  lemma ResolvedTurn(s: State, made: Made)
    requires s.turn.Some? && (s.turn.value.phase.Resolving? || s.turn.value.phase.Replacing?)
    ensures
      var s' := ResolveStep(s, made);
      && s'.running == s.running
      && (s'.turn.None? ==> s.turn.value.phase.Resolving?)
      && (s'.turn.Some? ==>
            && s'.turn.value.attempt == s.turn.value.attempt && s'.turn.value.startSeq == s.turn.value.startSeq
            && (s.turn.value.phase.Resolving? ==> s'.turn.value.phase.Marking?)
            && (s.turn.value.phase.Replacing? ==> s'.turn.value.phase.Prompting? || s'.turn.value.phase.Failing?))
  {
  }

  function MarkStep(s: State): State
  {
    if s.turn.None? || !s.turn.value.phase.Marking? then s
    else s.(status := Running, runningSinceSeq := Some(s.turn.value.startSeq), running := true,
            turn := Some(s.turn.value.(phase := Prompting)))
  }

  function ReceiveStep(s: State, update: Update): State
  {
    if s.turn.None? || !s.turn.value.phase.Prompting? then s
    else Log(s, WithUpdate(s.turn.value, update), SessionUpdate(update))
  }

  /** The prompt is over: try once more without the expired session, give up, or go on to the reply. */
  function FinishStep(s: State, answer: Answer): State
  {
    if s.turn.None? || !s.turn.value.phase.Prompting? then s
    else
      var t := s.turn.value.(answer := Some(answer));
      if answer.Threw? then s.(turn := Some(t.(phase := Failing)))
      else if answer.isError && Trim(t.assistantText) == "" then
        if t.attempt == 1 && t.resumes && answer.expired then
          CloseSession(Log(s, t.(assistantText := "", toolUseSinceLastText := false, attempt := 2, phase := Replacing),
                           SessionReset))
        else s.(turn := Some(t.(phase := Failing)))
      else s.(turn := Some(t.(phase := Replying(FinalText(t.assistantText, answer)))))
  }

  function ReplyStep(s: State): State
  {
    if s.turn.None? || !s.turn.value.phase.Replying? then s
    else Log(s, s.turn.value.(phase := Ending), AssistantMessage(s.turn.value.phase.content))
  }

  function EndStep(s: State): State
  {
    if s.turn.None? || !s.turn.value.phase.Ending? then s
    else Log(s, s.turn.value.(phase := Settling(true)), Done)
  }

  function FailStep(s: State): State
  {
    if s.turn.None? || !s.turn.value.phase.Failing? then s
    else Log(s, s.turn.value.(phase := Settling(false)), TurnFailed)
  }

  function SettleStep(s: State): State
  {
    if s.turn.None? || !s.turn.value.phase.Settling? then s
    else
      var t := s.turn.value;
      var s' := s.(status := if t.phase.ok then Completed else Failed, runningSinceSeq := None,
                   turn := Some(t.(phase := Closing(t.phase.ok))));
      if !t.phase.ok && t.keepAlive && t.runner !in s.alive then CloseSession(s') else s'
  }

  function CloseStep(s: State): State
  {
    if s.turn.None? || !s.turn.value.phase.Closing? then s
    else
      var t := s.turn.value;
      s.(running := false,
         cached := if t.keepAlive && s.cached.Some? then Some(s.cached.value.(idleTimer := true)) else s.cached,
         turn := None,
         ended := Some(Record(t.before, t.startSeq, t.events, t.answer, t.phase.ok)),
         history := s.history + [Record(t.before, t.startSeq, t.events, t.answer, t.phase.ok)])
  }

  /** What is left of the line a crash cuts off. */
  function Stub(s: State, cut: Cut): Line
  {
    if cut.BeforeNewline? && s.turn.Some? then Entry(s.turn.value.seqNr + 1, cut.event, true) else Torn(true)
  }

  /** The process ends and comes up again. */
  function CrashStep(s: State, cut: Cut): State
  {
    s.(log := if cut.NoCut? then s.log else Append(s.log, Stub(s, cut)),
       status := if s.status.Running? then Interrupted else s.status,
       running := false, cached := None, alive := {}, turn := None, ended := None)
  }

  function Next(s: State, step: Step): State
  {
    match step
    case Start(resumes) => StartStep(s, resumes)
    case Resolve(made) => ResolveStep(s, made)
    case Mark => MarkStep(s)
    case Receive(update) => ReceiveStep(s, update)
    case Finish(answer) => FinishStep(s, answer)
    case Reply => ReplyStep(s)
    case End => EndStep(s)
    case Fail => FailStep(s)
    case Settle => SettleStep(s)
    case Close => CloseStep(s)
    case Die(runner) => s.(alive := s.alive - {runner})
    case IdleFires => if s.cached.Some? && s.cached.value.idleTimer then CloseSession(s) else s
    case CloseAll => CloseSession(s)
    case Crash(cut) => CrashStep(s, cut)
  }

  function Run(s: State, steps: seq<Step>): State
    decreases |steps|
  {
    if steps == [] then s else Next(Run(s, steps[..|steps| - 1]), steps[|steps| - 1])
  }

  // ---- the object -------------------------------------------------------------------------------

  /** What the runner of one attempt will do. */
  datatype Script = Script(made: Made, updates: seq<Update>, answer: Answer)

  /** A broker, seen from one session: its fields and the session's files. `turn` holds the variables of the
      turn in progress. */
  class Broker {
    var log: seq<Line>
    var status: Status
    var runningSinceSeq: Option<nat>
    var running: bool
    var cached: Option<Cached>
    var alive: set<nat>
    var made: nat
    var turn: Option<Turn>
    ghost var ended: Option<Record>
    ghost var history: seq<Record>

    constructor ()
      ensures Init(Model())
    {
      log, status, runningSinceSeq, running := [], Fresh, None, false;
      cached, alive, made, turn, ended, history := None, {}, 0, None, None, [];
    }

    ghost function Model(): State
      reads this
    {
      State(log, status, runningSinceSeq, running, cached, alive, made, turn, ended, history)
    }

    method AppendEvent(t: Turn, event: Event)
      modifies this
      ensures Model() == Log(old(Model()), t, event)
    {
      log := Append(log, Entry(t.seqNr + 1, event, false));
      turn := Some(t.(seqNr := t.seqNr + 1, events := t.events + [event]));
    }

    method CloseCached()
      modifies this
      ensures Model() == CloseSession(old(Model()))
    {
      if cached.Some? {
        alive := alive - {cached.value.runner};
        cached := None;
      }
    }

    method ArmIdleTimer()
      modifies this`cached
      ensures cached == if old(cached).Some? then Some(old(cached).value.(idleTimer := true)) else None
    {
      if cached.Some? {
        cached := Some(cached.value.(idleTimer := true));
      }
    }

    method ResolveRunner(factory: Made)
      requires turn.Some? && (turn.value.phase.Resolving? || turn.value.phase.Replacing?)
      modifies this
      ensures Model() == ResolveStep(old(Model()), factory)
    {
      var t := turn.value;
      var next := if t.phase.Resolving? then Marking else Prompting;
      if cached.Some? {
        var runner := cached.value.runner;
        cached := Some(cached.value.(idleTimer := false));
        if runner in alive {
          turn := Some(t.(runner := runner, keepAlive := true, phase := next));
          return;
        }
        cached := None;
      }
      if factory.Broken? {
        turn := if t.phase.Resolving? then None else Some(t.(phase := Failing));
        return;
      }
      alive := alive + {made};
      if factory.KeepAlive? {
        cached := Some(Cached(made, false));
      }
      turn := Some(t.(runner := made, keepAlive := factory.KeepAlive?, phase := next));
      made := made + 1;
    }

    method OnEvent(update: Update)
      requires turn.Some? && turn.value.phase.Prompting?
      modifies this
      ensures Model() == ReceiveStep(old(Model()), update)
    {
      var t := turn.value;
      match update {
      case Chunk(text) =>
        if t.toolUseSinceLastText && t.assistantText != "" {
          t := t.(assistantText := t.assistantText + "\n\n" + text);
        } else {
          assert t.assistantText + "" == t.assistantText;
          t := t.(assistantText := t.assistantText + text);
        }
        t := t.(toolUseSinceLastText := false);
      case ToolCall => t := t.(toolUseSinceLastText := true);
      case OtherUpdate =>
      }
      AppendEvent(t, SessionUpdate(update));
    }

    /** The prompt of one attempt: its updates, then its answer. */
    method Prompt(script: Script) returns (ghost steps: seq<Step>)
      requires turn.Some? && turn.value.phase.Prompting?
      modifies this
      ensures Model() == Run(old(Model()), steps) && NothingCrashes(steps)
      ensures turn.Some? && (turn.value.phase.Failing? || turn.value.phase.Replying? || turn.value.phase.Replacing?)
      ensures turn.value.phase.Replacing? ==> old(turn.value.attempt) == 1 && turn.value.attempt == 2
    {
      ghost var s := Model();
      steps := [];
      for i := 0 to |script.updates|
        invariant turn.Some? && turn.value.phase.Prompting? && turn.value.attempt == s.turn.value.attempt
        invariant Model() == Run(s, steps) && NothingCrashes(steps)
      {
        OnEvent(script.updates[i]);
        steps := AlsoStep(s, steps, Receive(script.updates[i]));
      }
      PromptSettled(script.answer);
      steps := AlsoStep(s, steps, Finish(script.answer));
    }

    method PromptSettled(answer: Answer)
      requires turn.Some? && turn.value.phase.Prompting?
      modifies this
      ensures Model() == FinishStep(old(Model()), answer)
    {
      var t := turn.value.(answer := Some(answer));
      if answer.Threw? {
        turn := Some(t.(phase := Failing));
        return;
      }
      if answer.isError && Trim(t.assistantText) == "" {
        if t.attempt == 1 && t.resumes && answer.expired {
          t := t.(assistantText := "", toolUseSinceLastText := false, attempt := 2, phase := Replacing);
          AppendEvent(t, SessionReset);
          CloseCached();
        } else {
          turn := Some(t.(phase := Failing));
        }
        return;
      }
      turn := Some(t.(phase := Replying(FinalText(t.assistantText, answer))));
    }

    method LogReply()
      requires turn.Some? && turn.value.phase.Replying?
      modifies this
      ensures Model() == EndStep(ReplyStep(old(Model())))
      ensures turn.Some? && turn.value.phase == Settling(true)
    {
      AppendEvent(turn.value.(phase := Ending), AssistantMessage(turn.value.phase.content));
      AppendEvent(turn.value.(phase := Settling(true)), Done);
    }

    method LogFailure()
      requires turn.Some? && turn.value.phase.Failing?
      modifies this
      ensures Model() == FailStep(old(Model()))
      ensures turn.Some? && turn.value.phase == Settling(false)
    {
      AppendEvent(turn.value.(phase := Settling(false)), TurnFailed);
    }

    method SettleMeta()
      requires turn.Some? && turn.value.phase.Settling?
      modifies this
      ensures Model() == SettleStep(old(Model()))
      ensures turn.Some? && turn.value.phase.Closing?
    {
      var t := turn.value;
      status, runningSinceSeq := if t.phase.ok then Completed else Failed, None;
      turn := Some(t.(phase := Closing(t.phase.ok)));
      if !t.phase.ok && t.keepAlive && t.runner !in alive {
        CloseCached();
      }
    }

    method CloseTurn()
      requires turn.Some? && turn.value.phase.Closing?
      modifies this
      ensures Model() == CloseStep(old(Model()))
      ensures turn.None? && !running
    {
      var t := turn.value;
      running := false;
      if t.keepAlive && cached.Some? {
        ArmIdleTimer();
      }
      ended := Some(Record(t.before, t.startSeq, t.events, t.answer, t.phase.ok));
      history := history + [Record(t.before, t.startSeq, t.events, t.answer, t.phase.ok)];
      turn := None;
    }

    /** From the last answer to the end of the turn's promise. */
    method FinishTurn() returns (ghost steps: seq<Step>)
      requires turn.Some? && (turn.value.phase.Failing? || turn.value.phase.Replying?)
      modifies this
      ensures Model() == Run(old(Model()), steps) && NothingCrashes(steps)
      ensures turn.None? && !running
    {
      hide ReplyStep, EndStep, FailStep, SettleStep, CloseStep, Run;
      ghost var s := Model();
      steps := NoSteps(s);
      if turn.value.phase.Replying? {
        LogReply();
        steps := AlsoStep(s, AlsoStep(s, steps, Reply), End);
      } else {
        LogFailure();
        steps := AlsoStep(s, steps, Fail);
      }
      SettleMeta();
      steps := AlsoStep(s, steps, Settle);
      CloseTurn();
      steps := AlsoStep(s, steps, Close);
    }

    method BeginTurn(resumes: bool)
      requires turn.None? && !running
      modifies this
      ensures Model() == StartStep(old(Model()), resumes)
      ensures turn.Some? && turn.value.phase.Resolving? && turn.value.attempt == 1
      ensures turn.value.startSeq == LastSeq(old(log))
      ensures !running
    {
      turn := Some(Turn(log, LastSeq(log), LastSeq(log), resumes, 0, false, 1, "", false, Resolving, [], None));
      ended := None;
    }

    method MarkRunning()
      requires turn.Some? && turn.value.phase.Marking?
      modifies this
      ensures Model() == MarkStep(old(Model()))
      ensures turn.Some? && turn.value.phase.Prompting?
      ensures turn.value.attempt == old(turn.value.attempt) && turn.value.startSeq == old(turn.value.startSeq)
    {
      status, runningSinceSeq, running := Running, Some(turn.value.startSeq), true;
      turn := Some(turn.value.(phase := Prompting));
    }

    /** The attempts of a turn: a second one only if the first found its session expired. */
    method Attempts(first: Script, second: Script) returns (ghost steps: seq<Step>)
      requires turn.Some? && turn.value.phase.Prompting? && turn.value.attempt == 1
      modifies this
      ensures Model() == Run(old(Model()), steps) && NothingCrashes(steps)
      ensures turn.Some? && (turn.value.phase.Failing? || turn.value.phase.Replying?)
    {
      hide ResolveStep, Run;
      ghost var s := Model();
      steps := Prompt(first);
      if turn.value.phase.Replacing? {
        ResolvedTurn(Model(), second.made);
        ResolveRunner(second.made);
        steps := AlsoStep(s, steps, Resolve(second.made));
        if turn.value.phase.Prompting? {
          ghost var more := Prompt(second);
          steps := AlsoSteps(s, steps, more);
        }
      }
    }

    /** A turn that nothing interferes with, from `startTurn` to the end of its promise; None where the
        source throws. */
    method RunTurn(resumes: bool, first: Script, second: Script) returns (startSeq: Option<nat>, ghost steps: seq<Step>)
      requires turn.None? ==> !running
      modifies this
      ensures Model() == Run(old(Model()), steps) && NothingCrashes(steps)
      ensures old(turn).Some? ==> startSeq == None && Model() == old(Model())
      ensures old(turn).None? ==> turn.None? && !running
      ensures startSeq.Some? ==> startSeq.value == LastSeq(old(log))
    {
      hide StartStep, ResolveStep, MarkStep, Run;
      ghost var s := Model();
      steps := NoSteps(s);
      if running || turn.Some? {
        return None, steps;
      }
      BeginTurn(resumes);
      steps := AlsoStep(s, steps, Start(resumes));
      ResolvedTurn(Model(), first.made);
      ResolveRunner(first.made);
      steps := AlsoStep(s, steps, Resolve(first.made));
      if turn.None? {
        return None, steps;
      }
      MarkRunning();
      steps := AlsoStep(s, steps, Mark);
      startSeq := Some(turn.value.startSeq);
      ghost var more := Attempts(first, second);
      steps := AlsoSteps(s, steps, more);
      more := FinishTurn();
      steps := AlsoSteps(s, steps, more);
    }
  }

  ghost function NoSteps(s: State): (r: seq<Step>)
    ensures Run(s, r) == s && r == []
  {
    []
  }

  ghost predicate NothingCrashes(steps: seq<Step>)
  {
    forall n :: 0 <= n < |steps| ==> !steps[n].Crash?
  }

  ghost function AlsoStep(s: State, steps: seq<Step>, step: Step): (r: seq<Step>)
    ensures Run(s, r) == Next(Run(s, steps), step)
    ensures NothingCrashes(steps) && !step.Crash? ==> NothingCrashes(r)
  {
    assert (steps + [step])[..|steps|] == steps;
    steps + [step]
  }

  ghost function AlsoSteps(s: State, steps: seq<Step>, more: seq<Step>): (r: seq<Step>)
    ensures Run(s, r) == Run(Run(s, steps), more)
    ensures NothingCrashes(steps) && NothingCrashes(more) ==> NothingCrashes(r)
  {
    RunSplits(s, steps, more);
    steps + more
  }

  lemma {:induction false} RunSplits(s: State, steps: seq<Step>, more: seq<Step>)
    ensures Run(s, steps + more) == Run(Run(s, steps), more)
    decreases |more|
  {
    hide Next;
    if more == [] {
      assert steps + more == steps;
    } else {
      var n := |more| - 1;
      RunSplits(s, steps, more[..n]);
      LastStep(s, steps, more);
      LastStep(Run(s, steps), [], more);
      assert [] + more == more && [] + more[..n] == more[..n];
      hide Run;
    }
  }

  lemma LastStep(s: State, steps: seq<Step>, more: seq<Step>)
    requires more != []
    ensures Run(s, steps + more) == Next(Run(s, steps + more[..|more| - 1]), more[|more| - 1])
  {
    hide Next, Run;
    AllButLast(steps, more);
    RunUnfolds(s, steps + more);
  }

  lemma AllButLast(steps: seq<Step>, more: seq<Step>)
    requires more != []
    ensures
      var n, all := |more| - 1, steps + more;
      all != [] && all[..|all| - 1] == steps + more[..n] && all[|all| - 1] == more[n]
  {
  }

  lemma RunUnfolds(s: State, steps: seq<Step>)
    requires steps != []
    ensures Run(s, steps) == Next(Run(s, steps[..|steps| - 1]), steps[|steps| - 1])
  {
    hide Next;
  }
}
