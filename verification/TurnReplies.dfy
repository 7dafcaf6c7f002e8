/** What a turn says in the end, read off its own log: the text of a reply and the reason of a failure. */
module TurnReplies {
  import opened Options
  import opened TurnBroker

  // ---- the text of a log ------------------------------------------------------------------------

  predicate IsChunk(e: Event)
  {
    e.SessionUpdate? && e.update.Chunk?
  }

  /** A tool was called after the last text of the attempt. */
  predicate ToolSince(events: seq<Event>)
  {
    exists i :: 0 <= i < |events| && events[i] == SessionUpdate(ToolCall)
             && forall j :: i < j < |events| ==> !IsChunk(events[j]) && events[j] != SessionReset
  }

  /** The text of the chunks since the last reset, in order, with an empty line between where a tool call
      interrupted it. */
  function Said(events: seq<Event>): string
  {
    if events == [] then ""
    else
      var earlier, last := events[..|events| - 1], events[|events| - 1];
      if last == SessionReset then ""
      else if IsChunk(last) then
        Said(earlier) + (if Said(earlier) != "" && ToolSince(earlier) then "\n\n" else "") + last.update.text
      else Said(earlier)
  }

  predicate Blank(text: string)
  {
    forall i :: 0 <= i < |text| ==> IsSpace(text[i])
  }

  /** `inner` is `text` without the blanks at its two ends. */
  ghost predicate TrimsTo(text: string, inner: string)
  {
    && inner != "" && !IsSpace(inner[0]) && !IsSpace(inner[|inner| - 1])
    && exists left, right :: Blank(left) && Blank(right) && text == left + inner + right
  }

  /** The message a turn ends with: the text said, trimmed; if there is none the answer's own; if there is none
      either, a phrase. */
  ghost predicate IsReply(content: string, said: string, answer: Answer)
  {
    && answer.Answered?
    && (!Blank(said) ==> TrimsTo(said, content))
    && (Blank(said) ==> !answer.isError && content == if answer.text != "" then answer.text else "(keine Antwort)")
  }

  /** A prompt that threw, or reported an error without having said anything. */
  predicate Fails(answer: Answer, said: string)
  {
    answer.Threw? || (answer.isError && Blank(said))
  }

  /** A turn is over: its last prompt failed, and so did the turn, or it did not, and the reply is logged. */
  ghost predicate EndsRight(events: seq<Event>, answer: Option<Answer>, ok: bool)
  {
    && answer.Some?
    && if ok then
         exists body, content ::
           events == body + [AssistantMessage(content), Done] && !Fails(answer.value, Said(body))
           && IsReply(content, Said(body), answer.value)
       else
         exists body :: events == body + [TurnFailed] && Fails(answer.value, Said(body))
  }

  // ---- blanks -----------------------------------------------------------------------------------

  /** The white space and line terminators of ECMAScript (sections 12.2 and 12.3). */
  lemma SpacesAre(c: char)
    ensures IsSpace(c) <==>
              c as int in {0x9, 0xA, 0xB, 0xC, 0xD, 0x20, 0xA0, 0x1680, 0x2000, 0x2001, 0x2002, 0x2003, 0x2004, 0x2005,
                           0x2006, 0x2007, 0x2008, 0x2009, 0x200A, 0x2028, 0x2029, 0x202F, 0x205F, 0x3000, 0xFEFF}
  {
  }

  lemma {:induction false} TrimStartMeans(text: string)
    ensures exists left :: Blank(left) && text == left + TrimStart(text)
    ensures TrimStart(text) != "" ==> !IsSpace(TrimStart(text)[0])
  {
    if text != "" && IsSpace(text[0]) {
      TrimStartMeans(text[1..]);
      var left :| Blank(left) && text[1..] == left + TrimStart(text[1..]);
      assert Blank([text[0]] + left) && text == [text[0]] + left + TrimStart(text);
    } else {
      assert Blank("") && text == "" + TrimStart(text);
    }
  }

  lemma {:induction false} TrimEndMeans(text: string)
    ensures exists right :: Blank(right) && text == TrimEnd(text) + right
    ensures TrimEnd(text) != "" ==> !IsSpace(TrimEnd(text)[|TrimEnd(text)| - 1])
  {
    if text != "" && IsSpace(text[|text| - 1]) {
      var shorter := text[..|text| - 1];
      TrimEndMeans(shorter);
      var right :| Blank(right) && shorter == TrimEnd(shorter) + right;
      assert Blank(right + [text[|text| - 1]]) && text == TrimEnd(text) + (right + [text[|text| - 1]]);
    } else {
      assert Blank("") && text == TrimEnd(text) + "";
    }
  }

  lemma TrimMeans(text: string)
    ensures Trim(text) == "" <==> Blank(text)
    ensures Trim(text) != "" ==> TrimsTo(text, Trim(text))
  {
    TrimStartMeans(text);
    var rest := TrimStart(text);
    TrimEndMeans(rest);
    var left :| Blank(left) && text == left + rest;
    var right :| Blank(right) && rest == TrimEnd(rest) + right;
    assert Trim(text) == TrimEnd(rest);
    hide TrimStart, TrimEnd;
    if Trim(text) != "" {
      assert text == left + Trim(text) + right;
      assert rest[0] == Trim(text)[0];
      assert text[|left|] == rest[0];
    } else {
      assert rest == right;
    }
  }

  // ---- what a turn keeps ------------------------------------------------------------------------

  lemma SaidAfter(events: seq<Event>, e: Event)
    ensures Said(events + [e]) ==
            if e == SessionReset then ""
            else if IsChunk(e) then
              Said(events) + (if Said(events) != "" && ToolSince(events) then "\n\n" else "") + e.update.text
            else Said(events)
    ensures ToolSince(events + [e]) ==
            if e == SessionReset || IsChunk(e) then false else e == SessionUpdate(ToolCall) || ToolSince(events)
  {
    var more := events + [e];
    assert more[..|events|] == events && more[|events|] == e;
    if ToolSince(events) {
      var i :| 0 <= i < |events| && events[i] == SessionUpdate(ToolCall)
               && forall j :: i < j < |events| ==> !IsChunk(events[j]) && events[j] != SessionReset;
      assert more[i] == events[i];
    }
    if ToolSince(more) {
      var i :| 0 <= i < |more| && more[i] == SessionUpdate(ToolCall)
               && forall j :: i < j < |more| ==> !IsChunk(more[j]) && more[j] != SessionReset;
      if i < |events| {
        assert events[i] == more[i] && forall j :: i < j < |events| ==> events[j] == more[j];
      }
    }
  }

  /** The variables say what the log says. */
  predicate Gathered(t: Turn)
  {
    t.assistantText == Said(t.events) && t.toolUseSinceLastText == ToolSince(t.events)
  }

  ghost predicate ReplyOk(t: Turn)
  {
    match t.phase
    case Resolving => t.events == [] && Gathered(t)
    case Marking => t.events == [] && Gathered(t)
    case Prompting => Gathered(t)
    case Replacing => Gathered(t) && t.answer.Some? && Fails(t.answer.value, Said(t.events))
    case Replying(content) =>
      t.answer.Some? && !Fails(t.answer.value, Said(t.events)) && IsReply(content, Said(t.events), t.answer.value)
    case Ending =>
      && t.answer.Some?
      && exists body, content ::
           t.events == body + [AssistantMessage(content)] && !Fails(t.answer.value, Said(body))
           && IsReply(content, Said(body), t.answer.value)
    case Failing => t.answer.Some? && Fails(t.answer.value, Said(t.events))
    case Settling(ok) => EndsRight(t.events, t.answer, ok)
    case Closing(ok) => EndsRight(t.events, t.answer, ok)
  }

  ghost predicate RepliesOk(s: State)
  {
    && (s.turn.Some? ==> ReplyOk(s.turn.value))
    && forall i :: 0 <= i < |s.history| ==> EndsRight(s.history[i].events, s.history[i].answer, s.history[i].ok)
  }

  lemma GatheredAfter(t: Turn, update: Update)
    requires Gathered(t)
    ensures Gathered(WithUpdate(t, update).(events := t.events + [SessionUpdate(update)]))
  {
    SaidAfter(t.events, SessionUpdate(update));
    hide Said, ToolSince;
  }

  lemma ReceiveKeepsReplies(s: State, update: Update)
    requires RepliesOk(s)
    ensures RepliesOk(ReceiveStep(s, update))
  {
    if s.turn.Some? && s.turn.value.phase.Prompting? {
      GatheredAfter(s.turn.value, update);
      hide Gathered, EndsRight, Append;
    }
  }

  /** How a prompt's end is taken, with the text its turn has logged: the turn fails if the prompt failed, unless
      an expired session is replaced, and otherwise goes on to its reply. */
  lemma FinishMeans(s: State, answer: Answer)
    requires s.turn.Some? && s.turn.value.phase.Prompting? && Gathered(s.turn.value)
    ensures
      var t, end := s.turn.value, FinishStep(s, answer).turn;
      var again := answer.Answered? && t.attempt == 1 && t.resumes && answer.expired;
      && end.Some? && end.value.answer == Some(answer)
      && (end.value.phase == Failing <==> Fails(answer, Said(t.events)) && !again)
      && (end.value.phase == Replacing <==> Fails(answer, Said(t.events)) && again)
      && (end.value.phase.Replying? <==> !Fails(answer, Said(t.events)))
      && (end.value.phase.Replying? ==>
            end.value.events == t.events && IsReply(end.value.phase.content, Said(t.events), answer))
      && (end.value.phase == Failing ==> end.value.events == t.events)
      && (end.value.phase == Replacing ==> end.value.events == t.events + [SessionReset] && Gathered(end.value))
  {
    var t := s.turn.value;
    TrimMeans(t.assistantText);
    SaidAfter(t.events, SessionReset);
    hide Trim, Blank, TrimsTo, Said, ToolSince;
  }

  lemma FinishKeepsReplies(s: State, answer: Answer)
    requires RepliesOk(s)
    ensures RepliesOk(FinishStep(s, answer))
  {
    if s.turn.Some? && s.turn.value.phase.Prompting? {
      FinishMeans(s, answer);
      SaidAfter(s.turn.value.events, SessionReset);
      FinishKeepsHistory(s, answer);
      hide FinishStep, Said, ToolSince, EndsRight, IsReply;
      assert Blank("");
    }
  }

  lemma FinishKeepsHistory(s: State, answer: Answer)
    ensures FinishStep(s, answer).history == s.history
  {
    hide Trim, FinalText;
  }

  lemma LoggingKeepsReplies(s: State, step: Step)
    requires RepliesOk(s) && (step.Reply? || step.End? || step.Fail?)
    ensures RepliesOk(Next(s, step))
  {
    hide RepliesOk, ReplyStep, EndStep, FailStep;
    match step
    case Reply => ReplyKeepsReplies(s);
    case End => EndKeepsReplies(s);
    case Fail => FailKeepsReplies(s);
  }

  lemma ReplyKeepsReplies(s: State)
    requires RepliesOk(s)
    ensures RepliesOk(ReplyStep(s))
  {
    hide Said, Fails, IsReply, Append, EndsRight;
  }

  lemma FailKeepsReplies(s: State)
    requires RepliesOk(s)
    ensures RepliesOk(FailStep(s))
  {
    if s.turn.Some? && s.turn.value.phase.Failing? {
      assert ReplyOk(s.turn.value);
      hide Said, Fails, IsReply, Append;
      assert EndsRight(s.turn.value.events + [TurnFailed], s.turn.value.answer, false);
      hide EndsRight;
    }
  }

  lemma EndKeepsReplies(s: State)
    requires RepliesOk(s)
    ensures RepliesOk(EndStep(s))
  {
    if s.turn.Some? && s.turn.value.phase.Ending? {
      ReplyThenDone(s.turn.value);
      hide ReplyOk, EndsRight, Append;
    }
  }

  lemma ReplyThenDone(t: Turn)
    requires ReplyOk(t) && t.phase.Ending?
    ensures ReplyOk(t.(phase := Settling(true), seqNr := t.seqNr + 1, events := t.events + [Done]))
  {
    hide Said, Fails, IsReply;
    var body, content :| t.events == body + [AssistantMessage(content)] && !Fails(t.answer.value, Said(body))
                         && IsReply(content, Said(body), t.answer.value);
    assert t.events + [Done] == body + [AssistantMessage(content), Done];
  }

  lemma NextKeepsReplies(s: State, step: Step)
    requires RepliesOk(s)
    ensures RepliesOk(Next(s, step))
  {
    if step.Receive? {
      ReceiveKeepsReplies(s, step.update);
      hide ReceiveStep, RepliesOk;
    } else if step.Finish? {
      FinishKeepsReplies(s, step.answer);
      hide FinishStep, RepliesOk;
    } else if step.Reply? || step.End? || step.Fail? {
      LoggingKeepsReplies(s, step);
      hide Next, RepliesOk;
    } else {
      OthersKeepReplies(s, step);
      hide Next, RepliesOk;
    }
  }

  lemma OthersKeepReplies(s: State, step: Step)
    requires RepliesOk(s) && !step.Receive? && !step.Finish? && !step.Reply? && !step.End? && !step.Fail?
    ensures RepliesOk(Next(s, step))
  {
    hide RepliesOk, StartStep, ResolveStep, MarkStep, SettleStep, CloseStep, CloseSession, CrashStep;
    match step
    case Start(resumes) => StartKeepsReplies(s, resumes);
    case Resolve(made) => ResolveKeepsReplies(s, made);
    case Mark => MarkKeepsReplies(s);
    case Settle => SettleKeepsReplies(s);
    case Close => CloseKeepsReplies(s);
    case _ => SurroundingsKeepReplies(s, step);
  }

  lemma StartKeepsReplies(s: State, resumes: bool)
    requires RepliesOk(s)
    ensures RepliesOk(StartStep(s, resumes))
  {
    hide EndsRight, Fails, IsReply;
  }

  lemma ResolveKeepsReplies(s: State, made: Made)
    requires RepliesOk(s)
    ensures RepliesOk(ResolveStep(s, made))
  {
    hide EndsRight, Fails, IsReply, Said, ToolSince;
  }

  lemma MarkKeepsReplies(s: State)
    requires RepliesOk(s)
    ensures RepliesOk(MarkStep(s))
  {
    hide EndsRight, Fails, IsReply, Said, ToolSince;
  }

  lemma SettleKeepsReplies(s: State)
    requires RepliesOk(s)
    ensures RepliesOk(SettleStep(s))
  {
    hide EndsRight, Fails, IsReply, Said, ToolSince;
  }

  lemma CloseKeepsReplies(s: State)
    requires RepliesOk(s)
    ensures RepliesOk(CloseStep(s))
  {
    hide EndsRight, Fails, IsReply, Said, ToolSince;
  }

  lemma SurroundingsKeepReplies(s: State, step: Step)
    requires RepliesOk(s) && (step.Die? || step.IdleFires? || step.CloseAll? || step.Crash?)
    ensures RepliesOk(Next(s, step))
  {
    hide ReplyOk, EndsRight, Append;
  }

  lemma {:induction false} RunKeepsReplies(init: State, steps: seq<Step>)
    requires Init(init)
    ensures RepliesOk(Run(init, steps))
    decreases |steps|
  {
    if steps != [] {
      RunKeepsReplies(init, steps[..|steps| - 1]);
      hide RepliesOk, Next;
      NextKeepsReplies(Run(init, steps[..|steps| - 1]), steps[|steps| - 1]);
    }
  }

  /** For every turn of every run that came to its end: it failed exactly if its last prompt threw, or reported an
      error with nothing said; and otherwise its reply is the text its log holds since the last reset, trimmed, or
      the answer's own text, or the phrase. */
  lemma TurnsReplyWhatTheySaid(init: State, steps: seq<Step>, i: nat)
    requires Init(init) && i < |Run(init, steps).history|
    ensures
      var r := Run(init, steps).history[i];
      EndsRight(r.events, r.answer, r.ok)
  {
    RunKeepsReplies(init, steps);
    hide Run, EndsRight;
  }
}
