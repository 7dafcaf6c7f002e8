/** What holds over every run of a session of `TurnBroker`, crashes and closed runners included. */
module TurnRuns {
  import opened Options
  import opened TurnBroker

  // ---- what a turn writes -----------------------------------------------------------------------

  /** The log after a turn has appended `events`, numbered from `start` + 1. */
  function Written(before: seq<Line>, start: nat, events: seq<Event>): seq<Line>
  {
    if events == [] then before
    else Append(Written(before, start, events[..|events| - 1]), Entry(start + |events|, events[|events| - 1], false))
  }

  /** The same events as log entries. */
  function Numbered(start: nat, events: seq<Event>): seq<Line>
  {
    seq(|events|, i requires 0 <= i < |events| => Entry(start + 1 + i, events[i], false))
  }

  function Resets(events: seq<Event>): nat
  {
    if events == [] then 0 else Resets(events[..|events| - 1]) + if events[|events| - 1].SessionReset? then 1 else 0
  }

  /** Updates and at most the resets that further attempts begin with. */
  predicate Body(events: seq<Event>, attempt: nat)
  {
    && (forall i :: 0 <= i < |events| ==> events[i].SessionUpdate? || events[i].SessionReset?)
    && Resets(events) + 1 == attempt <= 2
  }

  /** The events of a turn that is over: a body, then either the reply and "done", or "turn_failed". */
  ghost predicate WholeTurn(events: seq<Event>, ok: bool)
  {
    if ok then
      exists body, content, attempt :: Body(body, attempt) && events == body + [AssistantMessage(content), Done]
    else
      exists body, attempt :: Body(body, attempt) && events == body + [TurnFailed]
  }

  /** The events of a turn in some phase. */
  ghost predicate TrailOk(t: Turn)
  {
    match t.phase
    case Ending => exists body, content :: Body(body, t.attempt) && t.events == body + [AssistantMessage(content)]
    case Settling(ok) => WholeTurn(t.events, ok)
    case Closing(ok) => WholeTurn(t.events, ok)
    case _ => Body(t.events, t.attempt)
  }

  predicate Early(p: Phase)
  {
    p.Resolving? || p.Marking?
  }

  ghost predicate TurnOk(s: State, t: Turn)
  {
    && s.log == Written(t.before, t.startSeq, t.events)
    && t.startSeq == LastSeq(t.before) && t.seqNr == t.startSeq + |t.events|
    && TrailOk(t)
    && (Early(t.phase) ==> t.events == [])
    && (t.phase.Closing? ==> s.status == (if t.phase.ok then Completed else Failed) && s.runningSinceSeq == None)
    && (!Early(t.phase) && !t.phase.Closing? ==> s.status == Running && s.runningSinceSeq == Some(t.startSeq))
  }

  /** The idle timer of a cached runner is armed at most between turns and while the next one looks for its
      runner. */
  predicate TimerOk(s: State)
  {
    s.cached.Some? && s.cached.value.idleTimer ==> s.turn.None? || s.turn.value.phase.Resolving?
  }

  ghost predicate RecordOk(r: Record)
  {
    r.startSeq == LastSeq(r.before) && WholeTurn(r.events, r.ok)
  }

  /** After a turn its events are the last of the log and nothing says that it runs. */
  ghost predicate EndedOk(s: State)
  {
    s.ended.Some? ==>
      var r := s.ended.value;
      && s.turn.None? && s.history != [] && s.history[|s.history| - 1] == r && RecordOk(r)
      && s.log == Written(r.before, r.startSeq, r.events)
      && s.runningSinceSeq == None && s.status == if r.ok then Completed else Failed
  }

  ghost predicate Inv(s: State)
  {
    && (s.running <==> s.turn.Some? && !Early(s.turn.value.phase))
    && (s.turn.Some? ==> TurnOk(s, s.turn.value))
    && (s.turn.None? || Early(s.turn.value.phase) ==> s.status != Running)
    && TimerOk(s)
    && EndedOk(s)
    && forall i :: 0 <= i < |s.history| ==> RecordOk(s.history[i])
  }

  lemma WrittenAppend(before: seq<Line>, start: nat, events: seq<Event>, e: Event)
    ensures Written(before, start, events + [e]) ==
            Append(Written(before, start, events), Entry(start + |events| + 1, e, false))
  {
    assert (events + [e])[..|events|] == events;
  }

  lemma BodyAppend(events: seq<Event>, attempt: nat, e: Event)
    requires Body(events, attempt)
    ensures e.SessionUpdate? ==> Body(events + [e], attempt)
    ensures e.SessionReset? && attempt == 1 ==> Body(events + [e], 2)
  {
    assert (events + [e])[..|events|] == events;
  }

  /** The same turn, but for the text gathered and what it does next. */
  predicate SameTurn(t: Turn, was: Turn)
  {
    t.before == was.before && t.startSeq == was.startSeq && t.seqNr == was.seqNr && t.events == was.events
  }

  /** Appending an event that the next phase allows keeps the turn in order. */
  lemma LogKeepsTurn(s: State, t: Turn, e: Event)
    requires s.turn.Some? && TurnOk(s, s.turn.value) && !Early(s.turn.value.phase) && !s.turn.value.phase.Closing?
    requires SameTurn(t, s.turn.value) && !Early(t.phase) && !t.phase.Closing?
    requires TrailOk(t.(seqNr := t.seqNr + 1, events := t.events + [e]))
    ensures Log(s, t, e).turn.Some? && TurnOk(Log(s, t, e), Log(s, t, e).turn.value)
  {
    WrittenAppend(t.before, t.startSeq, t.events, e);
    hide TrailOk, Written;
  }

  lemma LogKeepsInv(s: State, t: Turn, e: Event)
    requires Inv(s) && s.turn.Some? && !Early(s.turn.value.phase) && !s.turn.value.phase.Closing?
    requires SameTurn(t, s.turn.value) && !Early(t.phase) && !t.phase.Closing?
    requires TrailOk(t.(seqNr := t.seqNr + 1, events := t.events + [e]))
    ensures Inv(Log(s, t, e))
  {
    hide TrailOk, RecordOk, Append, Written;
    LogKeepsTurn(s, t, e);
    hide TurnOk;
  }

  lemma ReceiveKeepsInv(s: State, update: Update)
    requires Inv(s)
    ensures Inv(ReceiveStep(s, update))
  {
    if s.turn.Some? && s.turn.value.phase.Prompting? {
      var t := s.turn.value;
      var t' := WithUpdate(t, update);
      assert SameTurn(t', t) && t'.phase == t.phase && t'.attempt == t.attempt;
      hide WithUpdate;
      BodyAppend(t.events, t.attempt, SessionUpdate(update));
      hide Inv, Body, Log;
      LogKeepsInv(s, t', SessionUpdate(update));
    }
  }

  lemma FinishKeepsInv(s: State, answer: Answer)
    requires Inv(s)
    ensures Inv(FinishStep(s, answer))
  {
    if s.turn.Some? && s.turn.value.phase.Prompting? {
      var t := s.turn.value.(answer := Some(answer));
      hide RecordOk, Trim, FinalText, WholeTurn;
      if answer.Threw? || !answer.isError || Trim(t.assistantText) != ""
          || !(t.attempt == 1 && t.resumes && answer.expired) {
        hide Written, Body;
      } else {
        var again := t.(assistantText := "", toolUseSinceLastText := false, attempt := 2, phase := Replacing);
        BodyAppend(t.events, t.attempt, SessionReset);
        hide Written, Body, Log, CloseSession;
        LogKeepsInv(s, again, SessionReset);
        assert FinishStep(s, answer) == CloseSession(Log(s, again, SessionReset));
        hide FinishStep, Inv;
        SurroundingsKeepInv(Log(s, again, SessionReset), CloseAll);
      }
    }
  }

  lemma ReplyKeepsInv(s: State)
    requires Inv(s)
    ensures Inv(ReplyStep(s))
  {
    if s.turn.Some? && s.turn.value.phase.Replying? {
      var t := s.turn.value;
      LogKeepsTurn(s, t.(phase := Ending), AssistantMessage(t.phase.content));
      hide TurnOk, RecordOk;
    }
  }

  lemma ReplyThenDone(t: Turn)
    requires t.phase.Ending? && TrailOk(t)
    ensures TrailOk(t.(phase := Settling(true), seqNr := t.seqNr + 1, events := t.events + [Done]))
  {
    var body, content :| Body(body, t.attempt) && t.events == body + [AssistantMessage(content)];
    hide Body;
    assert t.events + [Done] == body + [AssistantMessage(content), Done];
  }

  lemma EndKeepsInv(s: State)
    requires Inv(s)
    ensures Inv(EndStep(s))
  {
    if s.turn.Some? && s.turn.value.phase.Ending? {
      var t := s.turn.value;
      assert TrailOk(t);
      ReplyThenDone(t);
      hide TrailOk, WholeTurn, Inv, Log;
      LogKeepsInv(s, t.(phase := Settling(true)), Done);
    }
  }

  lemma FailKeepsInv(s: State)
    requires Inv(s)
    ensures Inv(FailStep(s))
  {
    if s.turn.Some? && s.turn.value.phase.Failing? {
      var t := s.turn.value;
      assert WholeTurn(t.events + [TurnFailed], false);
      LogKeepsTurn(s, t.(phase := Settling(false)), TurnFailed);
      hide TurnOk, RecordOk;
    }
  }

  lemma StartKeepsInv(s: State, resumes: bool)
    requires Inv(s)
    ensures Inv(StartStep(s, resumes))
  {
    hide RecordOk;
  }

  lemma ResolveKeepsInv(s: State, made: Made)
    requires Inv(s)
    ensures Inv(ResolveStep(s, made))
  {
    hide RecordOk, Written, Body;
  }

  lemma MarkKeepsInv(s: State)
    requires Inv(s)
    ensures Inv(MarkStep(s))
  {
    hide RecordOk, Written, Body;
  }

  lemma SettleKeepsInv(s: State)
    requires Inv(s)
    ensures Inv(SettleStep(s))
  {
    hide RecordOk, Written, WholeTurn;
  }

  lemma CloseKeepsInv(s: State)
    requires Inv(s)
    ensures Inv(CloseStep(s))
  {
    if s.turn.Some? && s.turn.value.phase.Closing? {
      var t := s.turn.value;
      assert RecordOk(Record(t.before, t.startSeq, t.events, t.answer, t.phase.ok));
      hide RecordOk, TurnOk;
    }
  }

  lemma NextKeepsInv(s: State, step: Step)
    requires Inv(s)
    ensures Inv(Next(s, step))
  {
    match step
    case Start(resumes) => StartKeepsInv(s, resumes);
    case Resolve(made) => ResolveKeepsInv(s, made);
    case Mark => MarkKeepsInv(s);
    case Receive(update) => ReceiveKeepsInv(s, update);
    case Finish(answer) => FinishKeepsInv(s, answer);
    case Reply => ReplyKeepsInv(s);
    case End => EndKeepsInv(s);
    case Fail => FailKeepsInv(s);
    case Settle => SettleKeepsInv(s);
    case Close => CloseKeepsInv(s);
    case _ => SurroundingsKeepInv(s, step);
  }

  /** Runners that die, timers that fire, sessions closed by others and crashes. */
  lemma SurroundingsKeepInv(s: State, step: Step)
    requires Inv(s) && (step.Die? || step.IdleFires? || step.CloseAll? || step.Crash?)
    ensures Inv(Next(s, step))
  {
    hide RecordOk, TrailOk, Written;
  }

  lemma {:induction false} RunKeepsInv(init: State, steps: seq<Step>)
    requires Init(init)
    ensures Inv(Run(init, steps))
    decreases |steps|
  {
    if steps != [] {
      RunKeepsInv(init, steps[..|steps| - 1]);
      hide Inv, Next;
      NextKeepsInv(Run(init, steps[..|steps| - 1]), steps[|steps| - 1]);
    }
  }

  // ---- reading a turn back ----------------------------------------------------------------------

  lemma {:induction false} WrittenIsAppended(before: seq<Line>, start: nat, events: seq<Event>)
    requires !OpenEnd(before)
    ensures Written(before, start, events) == before + Numbered(start, events)
  {
    if events != [] {
      var n := |events| - 1;
      WrittenIsAppended(before, start, events[..n]);
      assert Numbered(start, events) == Numbered(start, events[..n]) + [Entry(start + n + 1, events[n], false)];
      assert n > 0 ==> !Numbered(start, events[..n])[n - 1].open;
    } else {
      assert Numbered(start, events) == [];
    }
  }

  lemma {:induction false} ReadSinceSplits(a: seq<Line>, b: seq<Line>, since: nat)
    ensures ReadSince(a + b, since) == ReadSince(a, since) + ReadSince(b, since)
  {
    if b == [] {
      assert a + b == a;
    } else {
      ReadSinceSplits(a, b[..|b| - 1], since);
      assert (a + b)[..|a + b| - 1] == a + b[..|b| - 1];
    }
  }

  lemma {:induction false} NumberedIsRead(start: nat, events: seq<Event>, since: nat)
    requires since <= start
    ensures ReadSince(Numbered(start, events), since) == Numbered(start, events)
  {
    if events != [] {
      var n := |events| - 1;
      NumberedIsRead(start, events[..n], since);
      assert Numbered(start, events)[..n] == Numbered(start, events[..n]);
      assert Numbered(start, events) == Numbered(start, events)[..n] + [Entry(start + n + 1, events[n], false)];
    }
  }

  /** Reading from a turn's own start gives exactly its events if and only if the log it found has no number
      above the last one. */
  lemma ReadBackIff(before: seq<Line>, events: seq<Event>)
    requires !OpenEnd(before)
    ensures
      var start := LastSeq(before);
      ReadSince(Written(before, start, events), start) == Numbered(start, events) <==> ReadSince(before, start) == []
  {
    var start := LastSeq(before);
    WrittenIsAppended(before, start, events);
    ReadSinceSplits(before, Numbered(start, events), start);
    NumberedIsRead(start, events, start);
    var old' := ReadSince(before, start);
    assert old' + Numbered(start, events) == Numbered(start, events) ==> |old'| == 0;
  }

  /** Behind a line that a crash cut off, the first event of the next turn is lost: it runs together with the
      stub. If the stub does not parse, the numbers start again at 1, and reading from the turn's start gives
      everything old as well. */
  lemma {:induction false} TornEndLosesFirst(before: seq<Line>, events: seq<Event>)
    requires OpenEnd(before) && events != []
    ensures before[|before| - 1].Torn? ==> LastSeq(before) == 0
    ensures
      var start := LastSeq(before);
      ReadSince(Written(before, start, events), start) ==
      ReadSince(before[..|before| - 1], start) + Numbered(start, events)[1..]
  {
    var start := LastSeq(before);
    assert before[|before| - 1].Torn? ==> start == 0;
    hide Written, ReadSince, Numbered, OpenEnd, LastSeq;
    TornEndMerges(before, start, events);
    TornIsNotRead(before[..|before| - 1], start);
    NumberedTail(start, events);
    ReadSinceSplits(before[..|before| - 1] + [Torn(false)], Numbered(start + 1, events[1..]), start);
    NumberedIsRead(start + 1, events[1..], start);
  }

  lemma TornIsNotRead(log: seq<Line>, since: nat)
    ensures ReadSince(log + [Torn(false)], since) == ReadSince(log, since)
  {
    assert (log + [Torn(false)])[..|log|] == log;
  }

  lemma NumberedTail(start: nat, events: seq<Event>)
    requires events != []
    ensures Numbered(start, events)[1..] == Numbered(start + 1, events[1..])
  {
  }

  predicate ReadsBack(before: seq<Line>, events: seq<Event>)
  {
    ReadSince(Written(before, LastSeq(before), events), LastSeq(before)) == Numbered(LastSeq(before), events)
  }

  /** Every turn that finds this log can be read back, whatever it comes to. */
  ghost predicate AlwaysReadsBack(before: seq<Line>)
  {
    forall events, ok :: WholeTurn(events, ok) ==> ReadsBack(before, events)
  }

  /** Exactly the logs that do not end in the middle of a line and hold no number above their last. */
  lemma AlwaysReadsBackIff(before: seq<Line>)
    ensures AlwaysReadsBack(before) <==> !OpenEnd(before) && ReadSince(before, LastSeq(before)) == []
  {
    ShortestTurns();
    hide ReadsBack, WholeTurn;
    if OpenEnd(before) {
      BothCannotBeFirst(before);
    } else {
      forall events
        ensures ReadsBack(before, events) <==> ReadSince(before, LastSeq(before)) == []
      {
        ReadBackIff(before, events);
        DefinitionOfReadsBack(before, events);
      }
    }
  }

  lemma DefinitionOfReadsBack(before: seq<Line>, events: seq<Event>)
    ensures ReadsBack(before, events) <==>
            ReadSince(Written(before, LastSeq(before), events), LastSeq(before)) == Numbered(LastSeq(before), events)
  {
  }

  /** A turn whose prompt throws at once, and one whose prompt answers without a text. */
  function NoAnswer(): seq<Event>
  {
    [AssistantMessage("(keine Antwort)"), Done]
  }

  lemma ShortestTurns()
    ensures WholeTurn([TurnFailed], false) && WholeTurn(NoAnswer(), true)
  {
    assert Body([], 1);
    assert [] + [TurnFailed] == [TurnFailed] && [] + NoAnswer() == NoAnswer();
  }

  /** Behind an open end at most one event could seem to be read back, an old one of its number. */
  lemma BothCannotBeFirst(before: seq<Line>)
    requires OpenEnd(before)
    ensures !ReadsBack(before, [TurnFailed]) || !ReadsBack(before, NoAnswer())
  {
    var start := LastSeq(before);
    TornEndLosesFirst(before, [TurnFailed]);
    TornEndLosesFirst(before, NoAnswer());
    var failed, answered := Numbered(start, [TurnFailed]), Numbered(start, NoAnswer());
    assert failed[0] != answered[0];
    var old' := ReadSince(before[..|before| - 1], start);
    assert old' + failed[1..] == failed ==> old' == [failed[0]];
    assert old' + answered[1..] == answered ==> |old'| == 1 && (old' + answered[1..])[0] == old'[0];
  }

  lemma TornEndMerges(before: seq<Line>, start: nat, events: seq<Event>)
    requires OpenEnd(before) && events != []
    ensures Written(before, start, events) == before[..|before| - 1] + [Torn(false)] + Numbered(start + 1, events[1..])
  {
    WrittenFrom(before, start, events);
    WrittenIsAppended(before[..|before| - 1] + [Torn(false)], start + 1, events[1..]);
  }

  lemma WrittenLast(before: seq<Line>, start: nat, events: seq<Event>)
    requires events != []
    ensures
      var n := |events| - 1;
      Written(before, start, events)
      == Append(Written(before, start, events[..n]), Entry(start + n + 1, events[n], false))
  {
  }

  lemma WrittenNothing(before: seq<Line>, start: nat)
    ensures Written(before, start, []) == before
  {
  }

  lemma {:induction false} WrittenFrom(before: seq<Line>, start: nat, events: seq<Event>)
    requires events != []
    ensures
      var first := Append(before, Entry(start + 1, events[0], false));
      Written(before, start, events) == Written(first, start + 1, events[1..])
  {
    hide Append, Written;
    var n, first := |events| - 1, Append(before, Entry(start + 1, events[0], false));
    WrittenLast(before, start, events);
    if n == 0 {
      assert events[..0] == [] && events[1..] == [];
      WrittenNothing(before, start);
      WrittenNothing(first, start + 1);
    } else {
      var shorter, later := events[..n], events[1..];
      WrittenFrom(before, start, shorter);
      WrittenLast(first, start + 1, later);
      assert later[..n - 1] == shorter[1..];
      assert later[n - 1] == events[n];
    }
  }

  // ---- runs without a torn line -----------------------------------------------------------------

  predicate NothingTorn(steps: seq<Step>)
  {
    forall n :: 0 <= n < |steps| ==> steps[n].Crash? ==> steps[n].cut.NoCut?
  }

  /** The lines are numbered 1, 2, 3, ... */
  predicate Contiguous(log: seq<Line>)
  {
    forall i :: 0 <= i < |log| ==> log[i].Entry? && log[i].seqNr == i + 1 && !log[i].open
  }

  predicate TurnCounts(s: State)
  {
    && (s.turn.Some? ==> s.turn.value.seqNr == |s.log| && Contiguous(s.turn.value.before))
    && (s.ended.Some? ==> Contiguous(s.ended.value.before))
  }

  lemma LogKeepsContiguous(s: State, t: Turn, e: Event)
    requires Contiguous(s.log) && TurnCounts(s) && t.seqNr == |s.log| && Contiguous(t.before)
    ensures Contiguous(Log(s, t, e).log) && TurnCounts(Log(s, t, e))
  {
  }

  /** The log is as it was, and whatever is bookkept about it was already there. */
  lemma SameLogKeepsContiguous(s: State, s': State)
    requires Contiguous(s.log) && TurnCounts(s) && s'.log == s.log
    requires s'.turn.Some? ==>
               || (s.turn.Some? && s'.turn.value.seqNr == s.turn.value.seqNr
                   && s'.turn.value.before == s.turn.value.before)
               || (s'.turn.value.seqNr == LastSeq(s.log) && s'.turn.value.before == s.log)
    requires s'.ended.Some? ==> s'.ended == s.ended || (s.turn.Some? && s'.ended.value.before == s.turn.value.before)
    ensures Contiguous(s'.log) && TurnCounts(s')
  {
  }

  predicate Logs(s: State, step: Step)
  {
    s.turn.Some? &&
    ((step.Receive? && s.turn.value.phase.Prompting?) || (step.Reply? && s.turn.value.phase.Replying?)
     || (step.End? && s.turn.value.phase.Ending?) || (step.Fail? && s.turn.value.phase.Failing?))
  }

  lemma NextKeepsContiguous(s: State, step: Step)
    requires Contiguous(s.log) && TurnCounts(s) && (step.Crash? ==> step.cut.NoCut?)
    ensures Contiguous(Next(s, step).log) && TurnCounts(Next(s, step))
  {
    if Logs(s, step) {
      LoggingKeepsContiguous(s, step);
    } else if step.Finish? {
      FinishKeepsContiguous(s, step.answer);
    } else {
      OthersKeepLog(s, step);
      hide Next, Contiguous, TurnCounts;
      SameLogKeepsContiguous(s, Next(s, step));
    }
  }

  lemma LoggingKeepsContiguous(s: State, step: Step)
    requires Contiguous(s.log) && TurnCounts(s) && Logs(s, step)
    ensures Contiguous(Next(s, step).log) && TurnCounts(Next(s, step))
  {
    var t := s.turn.value;
    hide Log;
    match step
    case Receive(update) => LogKeepsContiguous(s, WithUpdate(t, update), SessionUpdate(update));
    case Reply => LogKeepsContiguous(s, t.(phase := Ending), AssistantMessage(t.phase.content));
    case End => LogKeepsContiguous(s, t.(phase := Settling(true)), Done);
    case Fail => LogKeepsContiguous(s, t.(phase := Settling(false)), TurnFailed);
  }

  lemma FinishKeepsContiguous(s: State, answer: Answer)
    requires Contiguous(s.log) && TurnCounts(s)
    ensures Contiguous(FinishStep(s, answer).log) && TurnCounts(FinishStep(s, answer))
  {
    hide Trim;
    if s.turn.Some? {
      var again := s.turn.value.(assistantText := "", toolUseSinceLastText := false, attempt := 2, phase := Replacing);
      LogKeepsContiguous(s, again, SessionReset);
      hide Log;
    }
  }

  lemma OthersKeepLog(s: State, step: Step)
    requires !Logs(s, step) && !step.Finish? && (step.Crash? ==> step.cut.NoCut?)
    ensures
      var s' := Next(s, step);
      && s'.log == s.log
      && (s'.turn.Some? ==>
            || (s.turn.Some? && s'.turn.value.seqNr == s.turn.value.seqNr
                && s'.turn.value.before == s.turn.value.before)
            || (s'.turn.value.seqNr == LastSeq(s.log) && s'.turn.value.before == s.log))
      && (s'.ended.Some? ==> s'.ended == s.ended || (s.turn.Some? && s'.ended.value.before == s.turn.value.before))
  {
    hide Log, LastSeq;
  }

  lemma {:induction false} RunIsContiguous(init: State, steps: seq<Step>)
    requires Init(init) && NothingTorn(steps)
    ensures Contiguous(Run(init, steps).log) && TurnCounts(Run(init, steps))
    decreases |steps|
  {
    if steps != [] {
      RunIsContiguous(init, steps[..|steps| - 1]);
      hide Next, Contiguous, TurnCounts;
      NextKeepsContiguous(Run(init, steps[..|steps| - 1]), steps[|steps| - 1]);
    }
  }

  lemma {:induction false} NothingAbove(log: seq<Line>, since: nat)
    requires Contiguous(log) && |log| <= since
    ensures ReadSince(log, since) == []
  {
    if log != [] {
      NothingAbove(log[..|log| - 1], since);
    }
  }

  /** In every run in which no line is torn, at every moment of a turn: its events are numbered from
      startSeq + 1 without a gap, and reading from startSeq, which is also the cursor kept in the meta data
      while it runs, gives exactly them. */
  lemma TurnIsReadBack(init: State, steps: seq<Step>)
    requires Init(init) && NothingTorn(steps)
    requires Run(init, steps).turn.Some?
    ensures
      var s := Run(init, steps);
      var t := s.turn.value;
      && Contiguous(s.log)
      && ReadSince(s.log, t.startSeq) == Numbered(t.startSeq, t.events)
      && (s.status.Running? ==> s.runningSinceSeq == Some(t.startSeq))
      && (s.running && !t.phase.Closing? ==> s.status.Running?)
  {
    var s := Run(init, steps);
    var t := s.turn.value;
    RunKeepsInv(init, steps);
    RunIsContiguous(init, steps);
    hide Run;
    assert LastSeq(t.before) == |t.before|;
    NothingAbove(t.before, |t.before|);
    ReadBackIff(t.before, t.events);
    hide TrailOk, Written, ReadSince, RecordOk;
  }

  /** ... and after it, until another turn starts or the process goes down: reading from its start gives the
      events of the turn that ended, all of them and nothing else, and no cursor is kept any more. */
  lemma EndedTurnIsReadBack(init: State, steps: seq<Step>)
    requires Init(init) && NothingTorn(steps)
    requires Run(init, steps).ended.Some?
    ensures
      var s := Run(init, steps);
      var r := s.ended.value;
      && s.turn.None? && !s.running && s.history != [] && s.history[|s.history| - 1] == r
      && ReadSince(s.log, r.startSeq) == Numbered(r.startSeq, r.events) && EndsOnce(r.events, r.ok)
      && s.runningSinceSeq == None && s.status == (if r.ok then Completed else Failed)
  {
    var s := Run(init, steps);
    var r := s.ended.value;
    RunKeepsInv(init, steps);
    RunIsContiguous(init, steps);
    hide Run;
    NothingAbove(r.before, |r.before|);
    assert LastSeq(r.before) == |r.before|;
    ReadBackIff(r.before, r.events);
    WholeTurnEndsOnce(r.events, r.ok);
    hide TrailOk, Written, ReadSince, WholeTurn, EndsOnce;
  }

  /** In every run, crashes included: a turn that ended wrote one of "done" and "turn_failed", once and last,
      and at most one session_reset; from then on, until another starts or the process goes down, the cursor
      is null and the status that of the ending; a turn that runs is the only one marked so, and the idle
      timer is not armed before it is over. */
  lemma TurnsEndOnce(init: State, steps: seq<Step>)
    requires Init(init)
    ensures
      var s := Run(init, steps);
      && (forall k :: 0 <= k < |s.history| ==> EndsOnce(s.history[k].events, s.history[k].ok))
      && (!s.running ==> !s.status.Running?)
      && (s.ended.Some? ==>
            && !s.running && s.history != [] && s.history[|s.history| - 1] == s.ended.value
            && s.runningSinceSeq == None && s.status == (if s.ended.value.ok then Completed else Failed))
      && (s.running ==> s.turn.Some? && (s.cached.Some? ==> !s.cached.value.idleTimer) && Next(s, IdleFires) == s)
  {
    var s := Run(init, steps);
    RunKeepsInv(init, steps);
    hide Run;
    forall k | 0 <= k < |s.history|
      ensures EndsOnce(s.history[k].events, s.history[k].ok)
    {
      assert RecordOk(s.history[k]);
      WholeTurnEndsOnce(s.history[k].events, s.history[k].ok);
    }
    hide EndsOnce, RecordOk, WholeTurn, Written;
  }

  predicate Terminal(e: Event)
  {
    e.Done? || e.TurnFailed?
  }

  predicate EndsOnce(events: seq<Event>, ok: bool)
  {
    && events != []
    && events[|events| - 1] == (if ok then Done else TurnFailed)
    && (forall i :: 0 <= i < |events| - 1 ==> !Terminal(events[i]))
    && Resets(events) <= 1
    && (ok ==> |events| >= 2 && events[|events| - 2].AssistantMessage?)
  }

  lemma WholeTurnEndsOnce(events: seq<Event>, ok: bool)
    requires WholeTurn(events, ok)
    ensures EndsOnce(events, ok)
  {
    if ok {
      var body, content, attempt :| Body(body, attempt) && events == body + [AssistantMessage(content), Done];
      assert events[..|events| - 1] == body + [AssistantMessage(content)];
      assert (body + [AssistantMessage(content)])[..|body|] == body;
    } else {
      var body, attempt :| Body(body, attempt) && events == body + [TurnFailed];
      assert events[..|events| - 1] == body;
    }
  }
}
