/** What the invariant of a turn means for its caller and for the provider. */
module AdapterTheorems {
  import opened Wrappers
  import opened Sorting
  import opened AdapterTurn
  import opened AdapterLog
  import opened AdapterAccounting
  import opened AdapterInvariant

  lemma Reached(cfg: Config, session: string, previous: string, events: seq<Event>)
    requires SmallFit(cfg)
    ensures Inv(cfg, Run(cfg, Initial(session, previous), events))
  {
    InitialInv(cfg, session, previous);
    RunInv(cfg, Initial(session, previous), events);
  }

  /**
   No lost wakeup: a turn that is not over is in exactly one of three phases. It initializes, or
   one provider call is under way, or it waits for a result its caller still owes.
   */
  lemma OnePhase(cfg: Config, session: string, previous: string, events: seq<Event>)
    requires SmallFit(cfg)
    requires !Run(cfg, Initial(session, previous), events).turn.completed
    ensures var s := Run(cfg, Initial(session, previous), events);
            && |s.runners| <= 1 && s.turn.providerInFlight <= 1
            && (Initializing(s.turn, s.runners) || Calling(s.turn, s.runners) || Waiting(s.turn, s.runners))
            && !(Initializing(s.turn, s.runners) && Calling(s.turn, s.runners))
            && !(Initializing(s.turn, s.runners) && Waiting(s.turn, s.runners))
            && !(Calling(s.turn, s.runners) && Waiting(s.turn, s.runners))
            && (s.turn.waiting ==> !s.turn.continuationInFlight)
  {
    Reached(cfg, session, previous, events);
  }

  /** When the last result that was owed arrives, the next provider call is scheduled, or the turn ends. */
  lemma LastResultWakes(cfg: Config, session: string, previous: string, events: seq<Event>, results: seq<ToolResult>,
                        staged: seq<ToolResult>)
    requires SmallFit(cfg) && DistinctResults(results)
    requires var s := Run(cfg, Initial(session, previous), events);
             && !s.deleted && !s.turn.completed && s.turn.waiting
             && Staged(s.turn.calls, false, results) == Ok(staged)
             && (forall c :: c in s.turn.calls.pendingTools && c !in s.turn.calls.buffered ==> exists r :: r in results && r.callID == c)
             && (cfg.maxTurnBytes > 0 ==> s.turn.calls.stateBytes + TotalBytes(cfg, staged) <= cfg.maxTurnBytes)
    ensures var t := Apply(cfg, Run(cfg, Initial(session, previous), events), ResultsArrive(results));
            t.turn.completed || (|t.runners| == 1 && t.runners[0].Scheduled? && t.runners[0].request.outputs != [])
  {
    hide Run, Apply, LogInv, TextInv;
    var s := Run(cfg, Initial(session, previous), events);
    Reached(cfg, session, previous, events);
    WakesUp(cfg, s, results, staged);
  }

  lemma WakesUp(cfg: Config, s: System, results: seq<ToolResult>, staged: seq<ToolResult>)
    requires Inv(cfg, s) && DistinctResults(results) && !s.deleted && !s.turn.completed && s.turn.waiting
    requires Staged(s.turn.calls, false, results) == Ok(staged)
    requires forall c :: c in s.turn.calls.pendingTools && c !in s.turn.calls.buffered ==> exists r :: r in results && r.callID == c
    requires cfg.maxTurnBytes > 0 ==> s.turn.calls.stateBytes + TotalBytes(cfg, staged) <= cfg.maxTurnBytes
    ensures var t := Apply(cfg, s, ResultsArrive(results));
            t.turn.completed || (|t.runners| == 1 && t.runners[0].Scheduled? && t.runners[0].request.outputs != [])
  {
    hide LogInv, TextInv, Dispatch, SentExactly, WithinLimits, Outputs;
    AllAnswered(cfg, s.turn.calls, results, staged);
    Dispatches(cfg, s.turn.(calls := Stage(cfg, s.turn.calls, staged)));
  }

  /** With a result for every pending call, the staged results complete the set. */
  lemma AllAnswered(cfg: Config, s: Calls, results: seq<ToolResult>, staged: seq<ToolResult>)
    requires Accounted(cfg, s) && DistinctResults(results) && Staged(s, false, results) == Ok(staged)
    requires forall c :: c in s.pendingTools && c !in s.buffered ==> exists r :: r in results && r.callID == c
    requires exists c :: c in s.pendingTools && c !in s.buffered
    ensures staged != [] && Answered(Stage(cfg, s, staged))
  {
    hide Staged, Buffered, DistinctResults;
    StagedExactly(s, false, results);
    BufferedExactly(s.buffered, staged);
    FreshArrive(s, results, staged);
    BufferComplete(s.pendingTools, s.buffered, staged, Buffered(s.buffered, staged));
  }

  lemma BufferComplete(pending: map<string, string>, buffered: map<string, ToolResult>, staged: seq<ToolResult>, after: map<string, ToolResult>)
    requires buffered.Keys <= pending.Keys && forall r :: r in staged ==> r.callID in pending
    requires forall c :: c in after <==> c in buffered || exists r :: r in staged && r.callID == c
    requires forall c :: c in pending && c !in buffered ==> exists r :: r in staged && r.callID == c
    requires exists c :: c in pending && c !in buffered
    ensures after.Keys == pending.Keys && staged != []
  {
  }

  lemma FreshArrive(s: Calls, results: seq<ToolResult>, staged: seq<ToolResult>)
    requires s.submitted.Keys !! s.pendingTools.Keys
    requires forall c :: c in s.pendingTools && c !in s.buffered ==> exists r :: r in results && r.callID == c
    requires forall r :: r in staged <==> r in results && Fresh(s, false, r)
    ensures forall c :: c in s.pendingTools && c !in s.buffered ==> exists r :: r in staged && r.callID == c
  {
    forall c | c in s.pendingTools && c !in s.buffered ensures exists r :: r in staged && r.callID == c {
      var r :| r in results && r.callID == c;
      assert Fresh(s, false, r);
    }
  }

  lemma Dispatches(cfg: Config, t: Turn)
    requires Answered(t.calls) && t.calls.pendingTools != map[]
    ensures var (t1, r) := Dispatch(cfg, t); t1.completed || (r.Some? && r.value.outputs != [])
  {
    SortedEmpty(Sorted(t.calls.pendingTools.Keys), t.calls.pendingTools.Keys);
    var c :| c in t.calls.pendingTools;
    assert t.calls.pendingTools.Keys != {};
  }

  /** Each continuation answers each of the pending provider calls once, with the result given for it. */
  lemma ContinuationsExact(cfg: Config, session: string, previous: string, events: seq<Event>)
    requires SmallFit(cfg)
    ensures var s := Run(cfg, Initial(session, previous), events);
            && Accounted(cfg, s.turn.calls) && WithinLimits(cfg, s.turn.calls)
            && SentExactly(cfg, s.turn.calls.submitted, s.sent)
  {
    Reached(cfg, session, previous, events);
  }

  /** What a caller sees of a log, whenever it looks and from wherever it goes on. */
  ghost predicate LogSound(cfg: Config, frames: seq<Frame>, done: bool) {
    && Grammar(cfg, frames, done)
    && (cfg.maxEvents >= 2 ==> |frames| <= cfg.maxEvents)
    && forall afterSeq: nat :: Resumes(frames, afterSeq)
  }

  lemma SoundLog(cfg: Config, log: Log, done: bool)
    requires LogInv(cfg, log, done)
    ensures LogSound(cfg, log.frames, done)
  {
    hide Resumes;
    forall afterSeq: nat ensures Resumes(log.frames, afterSeq) {
      ReconnectExact(cfg, log.frames, done, afterSeq);
    }
  }

  /** The log of a turn, under every interleaving. */
  lemma LogGrammatical(cfg: Config, session: string, previous: string, events: seq<Event>)
    requires SmallFit(cfg)
    ensures var t := Run(cfg, Initial(session, previous), events).turn;
            LogSound(cfg, t.log.frames, t.completed)
  {
    hide Run, LogInv, LogSound, CallsInv, TextInv, PhaseInv;
    var t := Run(cfg, Initial(session, previous), events).turn;
    Reached(cfg, session, previous, events);
    SoundLog(cfg, t.log, t.completed);
  }

  /** What a completed turn reports is what its output frames said, and what its provider calls said, in order. */
  lemma TextConserved(cfg: Config, session: string, previous: string, events: seq<Event>)
    requires SmallFit(cfg)
    requires var t := Run(cfg, Initial(session, previous), events).turn;
             t.completed && t.log.frames != [] && t.log.frames[|t.log.frames| - 1].kind.TurnCompleted?
    ensures var s := Run(cfg, Initial(session, previous), events);
            var frames := s.turn.log.frames;
            frames[|frames| - 1].text == Spoken(frames) == Concat(s.rounds)
  {
    Reached(cfg, session, previous, events);
  }

  /** A finished turn never changes its log again. */
  lemma FinishedForGood(cfg: Config, s: System, e: Event)
    requires s.turn.completed && |s.runners| <= 1
    ensures var t := Apply(cfg, s, e);
            t.turn.completed && t.turn.log.frames == s.turn.log.frames && |t.runners| <= |s.runners| && t.sent == s.sent && t.rounds == s.rounds
  {
    hide EnsureStarted, Flush, FinishFailed, FinishCancelled, ByStatus, Dispatch;
    OnlyOne(cfg, s, e);
  }
}
