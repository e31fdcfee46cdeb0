/** Reconnection while a turn goes on: its log only grows, and no frame is lost, repeated or moved. */
module AdapterReconnection {
  import opened Wrappers
  import opened Sorting
  import opened AdapterTurn
  import opened AdapterLog
  import opened AdapterTheorems

  /** The log of `u` is that of `t`, or goes on from it. */
  predicate GoesOn(t: Turn, u: Turn) {
    t.log.frames <= u.log.frames
  }

  lemma FailedGoesOn(cfg: Config, t: Turn, retryable: bool)
    ensures GoesOn(t, FinishFailed(cfg, t, retryable)) && GoesOn(t, FinishCancelled(cfg, t)) && GoesOn(t, FinishCompleted(cfg, t))
  {
    hide Closed;
    ClosedGoesOn(cfg, t.log, Plain(TurnFailed, "", "").(
                   retryable := retryable && !t.uncertain && !t.calls.exposedWrite && !cfg.observed));
    ClosedGoesOn(cfg, t.log, Plain(TurnCancelled, "", ""));
    ClosedGoesOn(cfg, t.log, Plain(TurnCompleted, t.text, ""));
  }

  lemma DispatchGoesOn(cfg: Config, t: Turn)
    requires Answered(t.calls)
    ensures GoesOn(t, Dispatch(cfg, t).0)
  {
    hide FinishFailed, EmitResults, Append;
    EmitGoesOn(cfg, t.log, t.calls, Sorted(t.calls.pendingTools.Keys));
    FailedGoesOn(cfg, Prepare(cfg, t).0, false);
  }

  lemma TextGoesOn(cfg: Config, log: Log, delta: string)
    ensures log.frames <= EnsureStarted(cfg, log).0.frames
    ensures log.frames <= TakeText(cfg, log, delta).0.frames
    ensures log.frames <= ReadyForCall(cfg, log).0.frames
  {
    hide Numbered, Plain;
  }

  lemma AppendGoesOn(cfg: Config, log: Log, f: Frame)
    ensures log.frames <= Append(cfg, log, f).0.frames
  {
  }

  lemma CreatedGoesOn(cfg: Config, t: Turn, session: string)
    ensures GoesOn(t, OnCreated(cfg, t, session).0)
  {
    hide EnsureStarted;
    TextGoesOn(cfg, t.log, "");
  }

  lemma DeltaGoesOn(cfg: Config, t: Turn, delta: string)
    ensures GoesOn(t, OnText(cfg, t, delta).0)
  {
    hide EnsureStarted, TakeText;
    TextGoesOn(cfg, t.log, delta);
    TextGoesOn(cfg, EnsureStarted(cfg, t.log).0, delta);
  }

  lemma CallGoesOn(cfg: Config, t: Turn, provider: string, call: Call)
    ensures GoesOn(t, OnCall(cfg, t, provider, call).0)
  {
    hide ReadyForCall, Append, WithinCallLimits, AddCall, SameCall, CallBytes;
    var l := ReadyForCall(cfg, t.log).0;
    TextGoesOn(cfg, t.log, "");
    AppendGoesOn(cfg, l, Plain(ToolCallRequested, call.arguments, cfg.orkaCallID(provider)));
  }

  /** The end of a provider call that is in time, once the output is flushed. */
  lemma DoneGoesOn(cfg: Config, t: Turn, status: Status)
    ensures var (l1, started) := EnsureStarted(cfg, t.log);
            var (l2, flushed) := Flush(cfg, l1);
            && GoesOn(t, FinishFailed(cfg, t.(log := l1), false))
            && GoesOn(t, FinishFailed(cfg, t.(log := l2.(pendingOutput := "")), false))
            && GoesOn(t, ByStatus(cfg, t.(log := l2), status).0)
  {
    hide FinishFailed, FinishCancelled, FinishCompleted, Dispatch, ByStatus, EnsureStarted;
    var (l1, started) := EnsureStarted(cfg, t.log);
    var (l2, flushed) := Flush(cfg, l1);
    TextGoesOn(cfg, t.log, "");
    FailedGoesOn(cfg, t.(log := l1), false);
    FailedGoesOn(cfg, t.(log := l2.(pendingOutput := "")), false);
    StatusGoesOn(cfg, t.(log := l2), status);
  }

  lemma EndGoesOn(cfg: Config, t: Turn, responseID: string, session: string, status: Status, late: bool)
    ensures GoesOn(t, ProviderDone(cfg, t, responseID, session, status, late).0)
  {
    hide FinishFailed, ByStatus, EnsureStarted, Flush;
    var t0 := Released(t);
    FailedGoesOn(cfg, t0.(uncertain := false), true);
    DoneGoesOn(cfg, t0.(uncertain := false, at := Received(t0.at, responseID, session)), status);
  }

  lemma StatusGoesOn(cfg: Config, t: Turn, status: Status)
    ensures GoesOn(t, ByStatus(cfg, t, status).0)
  {
    hide FinishFailed, FinishCancelled, FinishCompleted, Dispatch;
    FailedGoesOn(cfg, t, if status.FailedStatus? then status.retryable else false);
    if Answered(t.calls) { DispatchGoesOn(cfg, t.(waiting := true)); }
  }

  lemma ContinueGoesOn(cfg: Config, t: Turn, results: seq<ToolResult>)
    ensures GoesOn(t, Continue(cfg, t, results).0)
  {
    hide Dispatch, Staged, Stage;
    var staged := Staged(t.calls, t.completed, results);
    if staged.Ok? && Answered(Stage(cfg, t.calls, staged.value)) {
      DispatchGoesOn(cfg, t.(calls := Stage(cfg, t.calls, staged.value)));
    }
  }

  lemma FailureGoesOn(cfg: Config, t: Turn, failure: Failure, invalid: bool)
    ensures GoesOn(t, ProviderFailed(cfg, t, failure, invalid))
    ensures GoesOn(t, FlushTimer(cfg, t)) && GoesOn(t, DeadlinePassed(cfg, t)) && GoesOn(t, Cancelled(cfg, t))
  {
    hide FinishFailed, FinishCancelled, FinishCompleted;
    var t0 := Released(t);
    var t1 := if invalid then t0.(at := t0.at.(agentSessionID := "", previousResponse := "")) else t0;
    FailedGoesOn(cfg, t1, if failure.Broken? then failure.retryable else true);
    FailedGoesOn(cfg, t, true);
    FailedGoesOn(cfg, t.(log := Flush(cfg, t.log).0.(pendingOutput := "")), false);
  }

  lemma EventGoesOn(cfg: Config, s: System, e: Event)
    ensures GoesOn(s.turn, Apply(cfg, s, e).turn)
  {
    hide OnText, OnCreated, OnCall, ProviderFailed, ProviderDone, FlushTimer, DeadlinePassed, Cancelled, Continue;
    match e
    case Created(_, _, session) => CreatedGoesOn(cfg, s.turn, session);
    case TextDelta(_, delta) => DeltaGoesOn(cfg, s.turn, delta);
    case FunctionCall(_, provider, call) => CallGoesOn(cfg, s.turn, provider, call);
    case RunnerFails(_, failure, invalid) => FailureGoesOn(cfg, s.turn, failure, invalid);
    case RunnerEnds(n, text, status, responseID, session, late) =>
      if n < |s.runners| && s.runners[n].Running? {
        var r := Identified(s.runners[n], responseID, session);
        if r.Some? { EndGoesOn(cfg, s.turn, r.value.responseID, r.value.session, status, late); }
      }
    case ResultsArrive(results) => ContinueGoesOn(cfg, s.turn, results);
    case _ => FailureGoesOn(cfg, s.turn, TimedOut, false);
  }

  lemma {:induction false} LogGoesOn(cfg: Config, s: System, events: seq<Event>, more: seq<Event>)
    ensures GoesOn(Run(cfg, s, events).turn, Run(cfg, s, events + more).turn)
  {
    hide Apply;
    if more == [] {
      assert events + more == events;
    } else {
      var last := |more| - 1;
      assert (events + more)[..|events + more| - 1] == events + more[..last];
      LogGoesOn(cfg, s, events, more[..last]);
      EventGoesOn(cfg, Run(cfg, s, events + more[..last]), more[last]);
    }
  }

  lemma SeenSoFar(cfg: Config, frames: seq<Frame>, done: bool, seen: nat)
    requires Grammar(cfg, frames, done) && seen <= |frames|
    ensures forall f :: f in frames[..seen] ==> f.seqNo <= seen
  {
  }

  /**
   A caller that has seen the first frames of a turn and comes back after any further events gets the rest:
   what it saw and what it gets then are the whole log, each frame once.
   */
  lemma ResumedExactly(cfg: Config, session: string, previous: string, events: seq<Event>, more: seq<Event>, seen: nat)
    requires SmallFit(cfg) && seen <= |Run(cfg, Initial(session, previous), events).turn.log.frames|
    ensures var before := Run(cfg, Initial(session, previous), events).turn.log.frames;
            var now := Run(cfg, Initial(session, previous), events + more).turn.log.frames;
            && before[..seen] + FramesAfter(now, seen) == now
            && forall f :: f in FramesAfter(now, seen) ==> f !in before[..seen]
  {
    hide Run, Grammar;
    LogGoesOn(cfg, Initial(session, previous), events, more);
    LogGrammatical(cfg, session, previous, events + more);
    var before := Run(cfg, Initial(session, previous), events).turn.log.frames;
    var now := Run(cfg, Initial(session, previous), events + more).turn.log.frames;
    var done := Run(cfg, Initial(session, previous), events + more).turn.completed;
    assert before[..seen] == now[..seen];
    SeenSoFar(cfg, now, done, seen);
    ReconnectExact(cfg, now, done, seen);
  }
}
