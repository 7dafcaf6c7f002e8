/** The cached keep-alive runner of a session: who uses it, when it is replaced, when it is dropped. */
module TurnSessions {
  import opened Options
  import opened TurnBroker

  /** Runner numbers are fresh; while a turn has a runner, the cached one, if there is one, is this keep-alive
      runner. */
  predicate CacheOk(s: State)
  {
    && (s.cached.Some? ==> s.cached.value.runner < s.made)
    && (forall r :: r in s.alive ==> r < s.made)
    && (s.turn.Some? && !s.turn.value.phase.Resolving? && s.cached.Some? ==>
          s.turn.value.keepAlive && s.cached.value.runner == s.turn.value.runner)
    && (s.cached.Some? ==> (s.cached.value.idleTimer <==> s.turn.None? || s.turn.value.phase.Resolving?))
  }

  lemma ResolveKeepsCache(s: State, made: Made)
    requires CacheOk(s)
    ensures CacheOk(ResolveStep(s, made))
  {
  }

  lemma FinishKeepsCache(s: State, answer: Answer)
    requires CacheOk(s)
    ensures CacheOk(FinishStep(s, answer))
  {
    hide Trim, FinalText, Append;
  }

  lemma OthersKeepCache(s: State, step: Step)
    requires CacheOk(s) && !step.Resolve? && !step.Finish?
    ensures CacheOk(Next(s, step))
  {
    hide ResolveStep, FinishStep, Append;
  }

  lemma {:induction false} RunKeepsCache(init: State, steps: seq<Step>)
    requires Init(init)
    ensures CacheOk(Run(init, steps))
    decreases |steps|
  {
    if steps != [] {
      var s, step := Run(init, steps[..|steps| - 1]), steps[|steps| - 1];
      RunKeepsCache(init, steps[..|steps| - 1]);
      hide CacheOk, Next;
      NextKeepsCache(s, step);
    }
  }

  lemma NextKeepsCache(s: State, step: Step)
    requires CacheOk(s)
    ensures CacheOk(Next(s, step))
  {
    hide CacheOk, ResolveStep, FinishStep;
    if step.Resolve? {
      ResolveKeepsCache(s, step.made);
    } else if step.Finish? {
      FinishKeepsCache(s, step.answer);
    } else {
      hide Next;
      OthersKeepCache(s, step);
    }
  }

  predicate LooksForRunner(s: State)
  {
    s.turn.Some? && (s.turn.value.phase == Resolving || s.turn.value.phase == Replacing)
  }

  /** In every run, when a turn looks for a runner: a live cached one is taken over and its idle timer stopped, and
      nothing is made; else a dead one is dropped and a runner never used before is made, cached exactly if it is
      to be kept alive; without one the turn does not begin, or fails if it had. */
  lemma RunnersAreReused(init: State, steps: seq<Step>, made: Made)
    requires Init(init) && LooksForRunner(Run(init, steps))
    ensures
      var s, s' := Run(init, steps), Next(Run(init, steps), Resolve(made));
      var live := s.cached.Some? && s.cached.value.runner in s.alive;
      && (live ==>
            && s'.turn.Some? && s'.turn.value.runner == s.cached.value.runner && s'.turn.value.keepAlive
            && s'.cached == Some(Cached(s.cached.value.runner, false)) && s'.alive == s.alive && s'.made == s.made)
      && (!live && made != Broken ==>
            && s'.turn.Some? && s'.turn.value.runner !in s.alive && s'.alive == s.alive + {s'.turn.value.runner}
            && s'.turn.value.runner < s'.made && s'.turn.value.runner >= s.made
            && (s'.turn.value.keepAlive <==> made == KeepAlive)
            && s'.cached == if made == KeepAlive then Some(Cached(s'.turn.value.runner, false)) else None)
      && (!live && made == Broken ==>
            && s'.cached == None && s'.alive == s.alive
            && (s.turn.value.phase == Resolving ==> s'.turn == None)
            && (s.turn.value.phase == Replacing ==> s'.turn.Some? && s'.turn.value.phase == Failing))
  {
    RunKeepsCache(init, steps);
    hide Run;
  }

  /** The idle timer of a cached runner runs exactly while no turn uses it: it is armed from the end of a turn until
      the next one has taken the runner over. */
  lemma IdleIsTimed(init: State, steps: seq<Step>)
    requires Init(init) && Run(init, steps).cached.Some?
    ensures
      var s := Run(init, steps);
      s.cached.value.idleTimer <==> s.turn.None? || s.turn.value.phase == Resolving
  {
    RunKeepsCache(init, steps);
    hide Run;
  }

  /** ... and when a turn writes its last status: the cached session is dropped exactly if the turn failed and the
      runner it kept alive is dead; the status says how the turn ended and the cursor is reset. */
  lemma DeadRunnersAreDropped(init: State, steps: seq<Step>)
    requires Init(init) && Run(init, steps).turn.Some? && Run(init, steps).turn.value.phase.Settling?
    ensures
      var s, s' := Run(init, steps), Next(Run(init, steps), Settle);
      var t := s.turn.value;
      && s'.cached == (if !t.phase.ok && t.keepAlive && t.runner !in s.alive then None else s.cached)
      && s'.alive == s.alive && s'.log == s.log
      && s'.status == (if t.phase.ok then Completed else Failed) && s'.runningSinceSeq == None
  {
    RunKeepsCache(init, steps);
    hide Run;
  }

  /** Only between turns a turn can begin, on the log as it is. */
  lemma TurnsDoNotOverlap(s: State, resumes: bool)
    ensures
      var s' := Next(s, Start(resumes));
      if s.running || s.turn.Some? then s' == s
      else
        && s'.turn.Some? && s'.turn.value.startSeq == LastSeq(s.log) && s'.turn.value.before == s.log
        && s'.turn.value.resumes == resumes && s'.log == s.log && s'.running == s.running
  {
  }

  /** What a crash leaves at the end of the log: nothing, an unreadable stub, or the next event without its
      newline; everything else is as after a start. */
  lemma CrashMeans(s: State, cut: Cut)
    requires !OpenEnd(s.log)
    ensures
      var s' := Next(s, Crash(cut));
      && (cut == NoCut ==> s'.log == s.log)
      && (cut != NoCut ==> OpenEnd(s'.log) && s'.log[..|s'.log| - 1] == s.log)
      && (cut.BeforeNewline? && s.turn.Some? ==> s'.log[|s.log|] == Entry(s.turn.value.seqNr + 1, cut.event, true))
      && (cut == InLine ==> s'.log[|s.log|].Torn?)
      && s'.turn == None && !s'.running && s'.cached == None && s'.alive == {}
      && s'.status == (if s.status == Running then Interrupted else s.status)
  {
  }
}
