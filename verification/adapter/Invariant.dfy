/**
 Every interleaving of callbacks, timers, deadlines, cancellation and tool results: a turn is
 always exactly in one phase, its log follows the grammar, its calls are accounted for and its
 text is conserved.
 */
module AdapterInvariant {
  import opened Wrappers
  import opened Text
  import opened Sorting
  import opened AdapterTurn
  import opened AdapterLog
  import opened AdapterAccounting

  // ---------------------------------------------------------------------------
  // Phases
  // ---------------------------------------------------------------------------

  /** The initialization has still to start the first provider call. */
  predicate Initializing(t: Turn, runners: seq<Runner>) {
    t.initializing && runners == [] && !t.waiting && !t.continuationInFlight
  }

  /** One provider call is running or about to. */
  predicate Calling(t: Turn, runners: seq<Runner>) {
    !t.initializing && |runners| == 1 && !t.waiting
  }

  /** The turn waits for its caller, and the caller still owes a result. */
  predicate Waiting(t: Turn, runners: seq<Runner>) {
    && !t.initializing && runners == [] && t.waiting && !t.continuationInFlight
    && exists c :: c in t.calls.pendingTools && c !in t.calls.buffered
  }

  predicate InFlight(runners: seq<Runner>) {
    |runners| == 1 && runners[0].Running?
  }

  ghost predicate PhaseInv(s: System) {
    && |s.runners| <= 1
    && s.turn.providerInFlight == (if InFlight(s.runners) then 1 else 0)
    && (s.turn.initializing ==> s.runners == [])
    && (!s.turn.completed ==>
          Initializing(s.turn, s.runners) || Calling(s.turn, s.runners) || Waiting(s.turn, s.runners))
  }

  // ---------------------------------------------------------------------------
  // Text
  // ---------------------------------------------------------------------------

  function Concat(parts: seq<string>): string {
    if parts == [] then "" else Concat(parts[..|parts| - 1]) + parts[|parts| - 1]
  }

  lemma ConcatMore(parts: seq<string>, part: string)
    ensures Concat(parts + [part]) == Concat(parts) + part
  {
    assert (parts + [part])[..|parts|] == parts;
  }

  function Said(runners: seq<Runner>): string {
    if InFlight(runners) then runners[0].said else ""
  }

  predicate NotBroken(runners: seq<Runner>) {
    InFlight(runners) ==> !runners[0].broken
  }

  /** Everything the provider said is in the log, or waits there; and it is what its summaries say. */
  ghost predicate TextInv(s: System) {
    && (!s.turn.completed && NotBroken(s.runners) ==>
          && s.turn.text == Spoken(s.turn.log.frames) + s.turn.log.pendingOutput
          && s.turn.text == Concat(s.rounds) + Said(s.runners))
    && (s.turn.completed && s.turn.log.frames != [] && s.turn.log.frames[|s.turn.log.frames| - 1].kind.TurnCompleted? ==>
          && s.turn.log.frames[|s.turn.log.frames| - 1].text == Spoken(s.turn.log.frames)
          && s.turn.log.frames[|s.turn.log.frames| - 1].text == Concat(s.rounds))
  }

  // ---------------------------------------------------------------------------
  // The invariant
  // ---------------------------------------------------------------------------

  ghost predicate CallsInv(cfg: Config, t: Turn, sent: seq<FunctionOutput>) {
    && Accounted(cfg, t.calls) && WithinLimits(cfg, t.calls) && SentExactly(cfg, t.calls.submitted, sent)
    && (t.completed ==> t.calls.pendingTools == map[])
    && (t.calls.pendingTools != map[] ==> t.log.started)
  }

  ghost predicate Inv(cfg: Config, s: System) {
    && LogInv(cfg, s.turn.log, s.turn.completed)
    && CallsInv(cfg, s.turn, s.sent)
    && PhaseInv(s)
    && TextInv(s)
  }

  lemma InitialInv(cfg: Config, agentSessionID: string, previousResponse: string)
    ensures Inv(cfg, Initial(agentSessionID, previousResponse))
  {
  }

  // ---------------------------------------------------------------------------
  // The end of a turn
  // ---------------------------------------------------------------------------

  lemma TerminalCalls(cfg: Config, t: Turn, log: Log, sent: seq<FunctionOutput>)
    requires Accounted(cfg, t.calls) && WithinLimits(cfg, t.calls) && SentExactly(cfg, t.calls.submitted, sent)
    ensures CallsInv(cfg, Terminal(t, log), sent)
  {
  }

  /** A turn that ends other than completed keeps everything, whatever its text. */
  lemma EndedInv(cfg: Config, t: Turn, last: Frame, s: System)
    requires SmallFit(cfg) && LogInv(cfg, t.log, false) && (last.kind.TurnFailed? || last.kind.TurnCancelled?) && Payload(last)
    requires Accounted(cfg, t.calls) && WithinLimits(cfg, t.calls) && SentExactly(cfg, t.calls.submitted, s.sent)
    requires s.turn == Terminal(t, Closed(cfg, t.log, last))
    requires |s.runners| <= 1 && t.providerInFlight == (if InFlight(s.runners) then 1 else 0) && (t.initializing ==> s.runners == [])
    ensures Inv(cfg, s)
  {
    ClosedKeeps(cfg, t.log, last);
    TerminalCalls(cfg, t, Closed(cfg, t.log, last), s.sent);
  }

  lemma FailedInv(cfg: Config, t: Turn, retryable: bool, s: System)
    requires SmallFit(cfg) && LogInv(cfg, t.log, false)
    requires Accounted(cfg, t.calls) && WithinLimits(cfg, t.calls) && SentExactly(cfg, t.calls.submitted, s.sent)
    requires s.turn == FinishFailed(cfg, t, retryable)
    requires |s.runners| <= 1 && t.providerInFlight == (if InFlight(s.runners) then 1 else 0) && (t.initializing ==> s.runners == [])
    ensures Inv(cfg, s) && s.turn.completed
  {
    EndedInv(cfg, t, Plain(TurnFailed, "", "").(retryable := retryable && !t.uncertain && !t.calls.exposedWrite && !cfg.observed), s);
  }

  lemma CancelledInv(cfg: Config, t: Turn, s: System)
    requires SmallFit(cfg) && LogInv(cfg, t.log, false)
    requires Accounted(cfg, t.calls) && WithinLimits(cfg, t.calls) && SentExactly(cfg, t.calls.submitted, s.sent)
    requires s.turn == FinishCancelled(cfg, t)
    requires |s.runners| <= 1 && t.providerInFlight == (if InFlight(s.runners) then 1 else 0) && (t.initializing ==> s.runners == [])
    ensures Inv(cfg, s)
  {
    EndedInv(cfg, t, Plain(TurnCancelled, "", ""), s);
  }

  /** A completed turn reports exactly what was said. */
  lemma CompletedInv(cfg: Config, t: Turn, s: System)
    requires SmallFit(cfg) && LogInv(cfg, t.log, false) && t.log.started && t.log.pendingOutput == ""
    requires Accounted(cfg, t.calls) && WithinLimits(cfg, t.calls) && SentExactly(cfg, t.calls.submitted, s.sent)
    requires t.text == Spoken(t.log.frames) && t.text == Concat(s.rounds)
    requires s.turn == FinishCompleted(cfg, t) && s.runners == [] && t.providerInFlight == 0
    ensures Inv(cfg, s)
  {
    ClosedKeeps(cfg, t.log, Plain(TurnCompleted, t.text, ""));
    TerminalCalls(cfg, t, Closed(cfg, t.log, Plain(TurnCompleted, t.text, "")), s.sent);
  }

  // ---------------------------------------------------------------------------
  // Callbacks
  // ---------------------------------------------------------------------------

  /** A callback of the running provider call, for a turn that goes on. */
  lemma CallbackInv(cfg: Config, s: System, t1: Turn, ok: bool, said: string)
    requires Inv(cfg, s) && !s.turn.completed && InFlight(s.runners) && !s.runners[0].broken
    requires LogInv(cfg, t1.log, false) && CallsInv(cfg, t1, s.sent) && !t1.completed
    requires t1.providerInFlight == s.turn.providerInFlight && t1.initializing == s.turn.initializing && t1.waiting == s.turn.waiting
    requires t1.continuationInFlight == s.turn.continuationInFlight
    requires ok ==> t1.text == s.turn.text + said && t1.text == Spoken(t1.log.frames) + t1.log.pendingOutput
    ensures Inv(cfg, AfterCallback(s, 0, (t1, ok), said))
  {
    hide CallsInv, Concat, Payload, Spoken, WithinLimits, LogInv;
  }

  lemma TextStep(cfg: Config, t: Turn, delta: string, sent: seq<FunctionOutput>)
    requires LogInv(cfg, t.log, false) && CallsInv(cfg, t, sent) && !t.completed
    ensures var (t1, ok) := OnText(cfg, t, delta);
            && LogInv(cfg, t1.log, false) && CallsInv(cfg, t1, sent) && t1 == t.(log := t1.log, text := t1.text)
            && (ok && t.text == Spoken(t.log.frames) + t.log.pendingOutput ==>
                  t1.text == t.text + delta && t1.text == Spoken(t1.log.frames) + t1.log.pendingOutput)
  {
    hide EnsureStarted, TakeText, LogInv, Accounted, SentExactly, Spoken, ByteLength, WithinLimits;
    StartKeeps(cfg, t.log);
    var (l, ok) := EnsureStarted(cfg, t.log);
    if ok { TextKeeps(cfg, l, delta); }
  }

  lemma CreatedStep(cfg: Config, t: Turn, session: string, sent: seq<FunctionOutput>)
    requires LogInv(cfg, t.log, false) && CallsInv(cfg, t, sent) && !t.completed
    ensures var (t1, ok) := OnCreated(cfg, t, session);
            && LogInv(cfg, t1.log, false) && CallsInv(cfg, t1, sent) && t1 == t.(log := t1.log, at := t1.at)
            && (t.text == Spoken(t.log.frames) + t.log.pendingOutput ==> t1.text == Spoken(t1.log.frames) + t1.log.pendingOutput)
  {
    hide EnsureStarted, LogInv, Accounted, SentExactly, Spoken, WithinLimits;
    StartKeeps(cfg, t.log);
  }

  lemma CallLog(cfg: Config, t: Turn, provider: string, c: Call)
    requires LogInv(cfg, t.log, false) && !t.completed
    ensures var (t1, ok) := OnCall(cfg, t, provider, c);
            && LogInv(cfg, t1.log, false) && t1 == t.(log := t1.log, calls := t1.calls)
            && (ok ==> Spoken(t1.log.frames) + t1.log.pendingOutput == Spoken(t.log.frames) + t.log.pendingOutput)
            && (t1.calls.pendingTools != t.calls.pendingTools ==> t1.log.started) && (t.log.started ==> t1.log.started)
  {
    hide WithinCallLimits, AddCall, SameCall, ReadyForCall, Append, LogInv, Spoken, CallBytes;
    ReadyKeeps(cfg, t.log);
    StartedStays(cfg, t.log);
    var (l, ready) := ReadyForCall(cfg, t.log);
    if ready { RequestFrame(cfg, l, c.arguments, cfg.orkaCallID(provider)); }
  }

  lemma StartedStays(cfg: Config, log: Log)
    ensures log.started ==> ReadyForCall(cfg, log).0.started
  {
  }

  lemma RequestFrame(cfg: Config, log: Log, arguments: string, callID: string)
    requires LogInv(cfg, log, false) && log.started && Room(cfg, log, 1)
    ensures var l := Append(cfg, log, Plain(ToolCallRequested, arguments, callID)).0;
            LogInv(cfg, l, false) && l.started && l.pendingOutput == log.pendingOutput && Spoken(l.frames) == Spoken(log.frames)
  {
    AppendKeeps(cfg, log, Plain(ToolCallRequested, arguments, callID));
  }

  lemma CallStep(cfg: Config, t: Turn, provider: string, c: Call, sent: seq<FunctionOutput>)
    requires LogInv(cfg, t.log, false) && CallsInv(cfg, t, sent) && !t.completed
    ensures var (t1, ok) := OnCall(cfg, t, provider, c);
            && LogInv(cfg, t1.log, false) && CallsInv(cfg, t1, sent) && t1 == t.(log := t1.log, calls := t1.calls)
            && (ok ==> Spoken(t1.log.frames) + t1.log.pendingOutput == Spoken(t.log.frames) + t.log.pendingOutput)
  {
    hide LogInv, Spoken;
    CallLog(cfg, t, provider, c);
    CallCalls(cfg, t, provider, c, sent);
  }

  function Exposed(cfg: Config, s: Calls, c: Call): Calls {
    s.(exposedWrite := s.exposedWrite || c.name in cfg.writeTools)
  }

  /** The calls are as they were, but for a write that was exposed, or have the new one, within the limits. */
  lemma CallOutcome(cfg: Config, t: Turn, provider: string, c: Call)
    ensures var s, s0, callID := OnCall(cfg, t, provider, c).0.calls, Exposed(cfg, t.calls, c), cfg.orkaCallID(provider);
            || s == t.calls || s == s0
            || (&& s == AddCall(s0, callID, provider, c) && callID !in t.calls.pendingTools && callID !in t.calls.submitted
                && WithinCallLimits(cfg, s0, CallBytes(callID, provider, c)))
  {
    hide ReadyForCall, Append, SameCall, CallBytes, WithinCallLimits, AddCall, Plain;
  }

  lemma ExposedKeeps(cfg: Config, s: Calls, c: Call)
    requires Accounted(cfg, s) && WithinLimits(cfg, s)
    ensures Accounted(cfg, Exposed(cfg, s, c)) && WithinLimits(cfg, Exposed(cfg, s, c))
  {
  }

  lemma CallCalls(cfg: Config, t: Turn, provider: string, c: Call, sent: seq<FunctionOutput>)
    requires Accounted(cfg, t.calls) && WithinLimits(cfg, t.calls) && SentExactly(cfg, t.calls.submitted, sent) && !t.completed
    ensures var s := OnCall(cfg, t, provider, c).0.calls;
            Accounted(cfg, s) && WithinLimits(cfg, s) && SentExactly(cfg, s.submitted, sent)
  {
    hide OnCall, Accounted, WithinLimits, SentExactly, CallBytes, WithinCallLimits;
    var s0, callID := Exposed(cfg, t.calls, c), cfg.orkaCallID(provider);
    CallOutcome(cfg, t, provider, c);
    ExposedKeeps(cfg, t.calls, c);
    if callID !in s0.pendingTools && callID !in s0.submitted && WithinCallLimits(cfg, s0, CallBytes(callID, provider, c)) {
      CallAdded(cfg, s0, provider, c);
    }
  }

  // ---------------------------------------------------------------------------
  // Continuations
  // ---------------------------------------------------------------------------

  lemma PreparedKeeps(cfg: Config, t: Turn, sent: seq<FunctionOutput>)
    requires LogInv(cfg, t.log, false) && t.log.started && !t.completed && Answered(t.calls) && !t.continuationInFlight
    requires Accounted(cfg, t.calls) && WithinLimits(cfg, t.calls) && SentExactly(cfg, t.calls.submitted, sent)
    ensures var (t1, r) := Prepare(cfg, t);
            && t1 == t.(log := t1.log, calls := t1.calls, waiting := t1.waiting, continuationInFlight := t1.continuationInFlight)
            && LogInv(cfg, t1.log, false) && t1.log.started && t1.log.pendingOutput == t.log.pendingOutput
            && Spoken(t1.log.frames) == Spoken(t.log.frames)
            && Accounted(cfg, t1.calls) && WithinLimits(cfg, t1.calls)
            && SentExactly(cfg, t1.calls.submitted, sent + (if r.Some? then r.value.outputs else []))
            && (r.Some? ==> t1.calls.pendingTools == map[] && !t1.waiting)
  {
    hide LogInv, Spoken, SentExactly, EmitResults, Outputs, Accounted, WithinLimits, Submitted;
    var order := Sorted(t.calls.pendingTools.Keys);
    assert sent + [] == sent;
    if Room(cfg, t.log, |order|) {
      EmitKeeps(cfg, t.log, t.calls, order);
      var emitted := EmitResults(cfg, t.log, t.calls, order).1;
      SubmittedKeeps(cfg, t.calls, emitted, sent);
      EmittedKeeps(cfg, t.calls, emitted);
    }
  }

  lemma EmittedKeeps(cfg: Config, s: Calls, emitted: set<string>)
    requires Accounted(cfg, s) && WithinLimits(cfg, s)
    ensures Accounted(cfg, s.(emitted := emitted)) && WithinLimits(cfg, s.(emitted := emitted))
    ensures WithinLimits(cfg, Submitted(s, emitted)) && Submitted(s, emitted).pendingTools == map[]
  {
  }

  lemma DispatchInv(cfg: Config, s: System, t: Turn)
    requires SmallFit(cfg) && LogInv(cfg, t.log, false) && CallsInv(cfg, t, s.sent) && !t.completed && !t.initializing
    requires t.calls.pendingTools != map[] && Answered(t.calls) && t.waiting && !t.continuationInFlight && t.providerInFlight == 0
    requires t.text == Spoken(t.log.frames) + t.log.pendingOutput && t.text == Concat(s.rounds)
    ensures var (t1, r) := Dispatch(cfg, t);
            Inv(cfg, Schedule(s, t1, [], r)) && (r.None? ==> t1.completed) && (r.Some? ==> !t1.completed)
  {
    hide LogInv, Spoken, SentExactly, Prepare, FinishFailed, Concat, Accounted, WithinLimits;
    PreparedKeeps(cfg, t, s.sent);
    var (t1, r) := Prepare(cfg, t);
    if r.None? {
      assert s.sent + [] == s.sent;
      FailedInv(cfg, t1, false, Schedule(s, FinishFailed(cfg, t1, false), [], None));
    }
  }

  lemma StillOwed(cfg: Config, s: Calls)
    requires Accounted(cfg, s) && !Answered(s)
    ensures exists c :: c in s.pendingTools && c !in s.buffered
  {
  }

  /** Results that were taken in, and did not complete the set. */
  lemma TakenInv(cfg: Config, s: System, calls: Calls)
    requires Inv(cfg, s) && Accounted(cfg, calls) && WithinLimits(cfg, calls)
    requires calls == s.turn.calls.(stateBytes := calls.stateBytes, buffered := calls.buffered)
    requires s.turn.completed ==> calls == s.turn.calls
    requires !s.turn.completed && s.turn.waiting ==> exists c :: c in calls.pendingTools && c !in calls.buffered
    ensures Inv(cfg, s.(turn := s.turn.(calls := calls)))
  {
  }

  lemma ContinueInv(cfg: Config, s: System, results: seq<ToolResult>)
    requires SmallFit(cfg) && Inv(cfg, s) && DistinctResults(results)
    ensures var (t1, outcome) := Continue(cfg, s.turn, results);
            Inv(cfg, Schedule(s, t1, s.runners, if outcome.Ok? then outcome.value else None))
  {
    hide LogInv, SentExactly, Dispatch, Accounted, TextInv, Staged, TotalBytes, WithinLimits;
    var t := s.turn;
    var staged := Staged(t.calls, t.completed, results);
    assert s.(turn := t, runners := s.runners) == s;
    CompletedBuffers(cfg, t, s.sent);
    if staged.Ok? && !(cfg.maxTurnBytes > 0 && t.calls.stateBytes + TotalBytes(cfg, staged.value) > cfg.maxTurnBytes) {
      StageKeeps(cfg, t.calls, t.completed, results);
      ContinueTaken(cfg, s, results, staged.value);
    }
  }

  lemma CompletedBuffers(cfg: Config, t: Turn, sent: seq<FunctionOutput>)
    requires CallsInv(cfg, t, sent)
    ensures t.completed ==> t.calls.buffered == map[]
  {
  }

  lemma ContinueTaken(cfg: Config, s: System, results: seq<ToolResult>, staged: seq<ToolResult>)
    requires SmallFit(cfg) && Inv(cfg, s) && Staged(s.turn.calls, s.turn.completed, results) == Ok(staged)
    requires !(cfg.maxTurnBytes > 0 && s.turn.calls.stateBytes + TotalBytes(cfg, staged) > cfg.maxTurnBytes)
    requires Accounted(cfg, Stage(cfg, s.turn.calls, staged)) && WithinLimits(cfg, Stage(cfg, s.turn.calls, staged))
    requires s.turn.completed ==> staged == [] && Stage(cfg, s.turn.calls, staged) == s.turn.calls
    ensures var (t1, outcome) := Continue(cfg, s.turn, results);
            Inv(cfg, Schedule(s, t1, s.runners, if outcome.Ok? then outcome.value else None))
  {
    hide LogInv, SentExactly, Dispatch, Accounted, Staged, WithinLimits, Spoken, Concat;
    var t := s.turn;
    var calls := Stage(cfg, t.calls, staged);
    if staged == [] { assert calls == t.calls; }
    if t.completed || staged == [] || t.calls.pendingTools == map[] || !t.waiting || !Answered(calls) {
      if !Answered(calls) { StillOwed(cfg, calls); }
      TakenInv(cfg, s, calls);
    } else {
      DispatchInv(cfg, s, t.(calls := calls));
    }
  }

  // ---------------------------------------------------------------------------
  // The end of a provider call
  // ---------------------------------------------------------------------------

  lemma FailsInv(cfg: Config, s: System, failure: Failure, invalid: bool)
    requires SmallFit(cfg) && Inv(cfg, s) && InFlight(s.runners)
    ensures Inv(cfg, s.(turn := ProviderFailed(cfg, s.turn, failure, invalid), runners := []))
  {
    hide LogInv, SentExactly, FinishFailed, FinishCancelled, Accounted, WithinLimits, Spoken, Concat;
    var t0 := Released(s.turn);
    var t1 := if invalid then t0.(at := t0.at.(agentSessionID := "", previousResponse := "")) else t0;
    var s1 := s.(turn := ProviderFailed(cfg, s.turn, failure, invalid), runners := []);
    if !t0.completed {
      match failure
      case TimedOut => FailedInv(cfg, t1, true, s1);
      case Interrupted => CancelledInv(cfg, t1, s1);
      case Broken(retryable) => FailedInv(cfg, t1, retryable, s1);
    }
  }

  lemma StatusInv(cfg: Config, s: System, t: Turn, status: Status)
    requires SmallFit(cfg) && LogInv(cfg, t.log, false) && t.log.started && t.log.pendingOutput == "" && CallsInv(cfg, t, s.sent)
    requires !t.completed && !t.initializing && !t.waiting && !t.continuationInFlight && t.providerInFlight == 0
    requires t.text == Spoken(t.log.frames) && t.text == Concat(s.rounds)
    ensures var (t1, r) := ByStatus(cfg, t, status); Inv(cfg, Schedule(s, t1, [], r))
  {
    hide LogInv, SentExactly, FinishFailed, FinishCancelled, FinishCompleted, Dispatch, Accounted, WithinLimits, Spoken, Concat, Answered;
    var (t1, r) := ByStatus(cfg, t, status);
    var s1 := Schedule(s, t1, [], r);
    match status
    case CompletedStatus =>
      if t.calls.pendingTools == map[] {
        CompletedInv(cfg, t, s1);
      } else if Answered(t.calls) {
        DispatchInv(cfg, s, t.(waiting := true));
      } else {
        StillOwed(cfg, t.calls);
      }
    case FailedStatus(retryable) => FailedInv(cfg, t, retryable, s1);
    case IncompleteStatus => FailedInv(cfg, t, false, s1);
    case CancelledStatus => CancelledInv(cfg, t, s1);
    case InvalidStatus => FailedInv(cfg, t, false, s1);
  }

  /** Started and flushed, the log holds the whole text. */
  lemma SettledLog(cfg: Config, log: Log)
    requires LogInv(cfg, log, false)
    ensures var (l1, started) := EnsureStarted(cfg, log);
            var (l2, flushed) := Flush(cfg, l1);
            && LogInv(cfg, l1, false) && LogInv(cfg, l2.(pendingOutput := ""), false)
            && (log.started ==> l1.started)
            && (started && flushed ==> LogInv(cfg, l2, false) && l2.started && l2.pendingOutput == ""
                                       && Spoken(l2.frames) == Spoken(log.frames) + log.pendingOutput)
  {
    hide EnsureStarted, Flush, Spoken;
    StartKeeps(cfg, log);
    FlushKeeps(cfg, EnsureStarted(cfg, log).0);
    DropKeeps(cfg, Flush(cfg, EnsureStarted(cfg, log).0).0);
  }

  lemma DoneInv(cfg: Config, s: System, t: Turn, responseID: string, session: string, status: Status, late: bool)
    requires SmallFit(cfg) && LogInv(cfg, t.log, false) && CallsInv(cfg, t, s.sent)
    requires !t.completed && !t.initializing && !t.waiting && t.providerInFlight == 1
    requires t.text == Spoken(t.log.frames) + t.log.pendingOutput && t.text == Concat(s.rounds)
    ensures var (t1, r) := ProviderDone(cfg, t, responseID, session, status, late); Inv(cfg, Schedule(s, t1, [], r))
  {
    hide LogInv, SentExactly, FinishFailed, ByStatus, Accounted, WithinLimits, Spoken, Concat, EnsureStarted, Flush;
    var t0 := Released(t);
    var (t2, r) := ProviderDone(cfg, t, responseID, session, status, late);
    var s1 := Schedule(s, t2, [], r);
    SettledLog(cfg, t.log);
    var t1 := t0.(uncertain := false, at := Received(t0.at, responseID, session));
    var (l1, started) := EnsureStarted(cfg, t.log);
    var (l2, flushed) := Flush(cfg, l1);
    if late {
      FailedInv(cfg, t0.(uncertain := false), true, s1);
    } else if !started {
      FailedInv(cfg, t1.(log := l1), false, s1);
    } else if !flushed {
      FailedInv(cfg, t1.(log := l2.(pendingOutput := "")), false, s1);
    } else {
      StatusInv(cfg, s, t1.(log := l2), status);
    }
  }

  // ---------------------------------------------------------------------------
  // Every event
  // ---------------------------------------------------------------------------

  lemma EndsInv(cfg: Config, s: System, text: string, status: Status, responseID: string, session: string, late: bool)
    requires SmallFit(cfg) && Inv(cfg, s)
    ensures Inv(cfg, Apply(cfg, s, RunnerEnds(0, text, status, responseID, session, late)))
  {
    hide LogInv, SentExactly, ProviderDone, Accounted, WithinLimits, Spoken, Advances;
    var t := s.turn;
    if InFlight(s.runners) && !s.runners[0].broken && text == s.runners[0].said && !s.deleted {
      var r := Identified(s.runners[0], responseID, session);
      if r.Some? && !(status.CompletedStatus? && !Advances(r.value)) {
        assert Without(s.runners, 0) == [];
        if t.completed {
          EndedEarlier(cfg, s, r.value, status, late);
        } else {
          ConcatMore(s.rounds, text);
          DoneInv(cfg, s.(rounds := s.rounds + [text]), t, r.value.responseID, r.value.session, status, late);
        }
      }
    }
  }

  lemma EndedEarlier(cfg: Config, s: System, r: Runner, status: Status, late: bool)
    requires Inv(cfg, s) && s.turn.completed && InFlight(s.runners) && r.Running?
    ensures var (t1, request) := ProviderDone(cfg, s.turn, r.responseID, r.session, status, late);
            Inv(cfg, Schedule(s, t1, [], request))
  {
    hide LogInv, SentExactly, Accounted, WithinLimits, Spoken, Concat;
  }

  lemma CreatedInv(cfg: Config, s: System, responseID: string, session: string)
    requires Inv(cfg, s)
    ensures Inv(cfg, Apply(cfg, s, Created(0, responseID, session)))
  {
    hide LogInv, SentExactly, Accounted, WithinLimits, Spoken, Concat, OnCreated;
    if InFlight(s.runners) && !s.runners[0].broken && !s.deleted {
      var r := Identified(s.runners[0], responseID, session);
      if r.Some? {
        var s1 := s.(runners := s.runners[0 := r.value]);
        if s.turn.completed {
          LateCreated(cfg, s.turn, session);
          Unchanged(cfg, s1, OnCreated(cfg, s.turn, session));
        } else {
          CreatedStep(cfg, s.turn, session, s.sent);
          CallbackInv(cfg, s1, OnCreated(cfg, s.turn, session).0, OnCreated(cfg, s.turn, session).1, "");
        }
      } else {
        BrokenInv(cfg, s);
      }
    }
  }

  lemma LateCreated(cfg: Config, t: Turn, session: string)
    ensures t.completed ==> OnCreated(cfg, t, session) == (t, true)
  {
  }

  lemma Unchanged(cfg: Config, s: System, outcome: (Turn, bool))
    requires Inv(cfg, s) && s.turn.completed && InFlight(s.runners) && outcome.0 == s.turn
    ensures forall said :: Inv(cfg, AfterCallback(s, 0, outcome, said))
  {
  }

  lemma BrokenInv(cfg: Config, s: System)
    requires Inv(cfg, s) && InFlight(s.runners)
    ensures Inv(cfg, AfterCallback(s, 0, (s.turn, false), ""))
  {
  }

  lemma TextDeltaInv(cfg: Config, s: System, delta: string)
    requires Inv(cfg, s)
    ensures Inv(cfg, Apply(cfg, s, TextDelta(0, delta)))
  {
    hide LogInv, SentExactly, Accounted, WithinLimits, Spoken, Concat, OnText;
    if InFlight(s.runners) && !s.runners[0].broken && !s.deleted {
      if s.turn.completed {
        LateText(cfg, s.turn, delta);
        Unchanged(cfg, s, OnText(cfg, s.turn, delta));
      } else {
        TextStep(cfg, s.turn, delta, s.sent);
        CallbackInv(cfg, s, OnText(cfg, s.turn, delta).0, OnText(cfg, s.turn, delta).1, delta);
      }
    }
  }

  lemma LateText(cfg: Config, t: Turn, delta: string)
    ensures t.completed ==> OnText(cfg, t, delta) == (t, true)
  {
  }

  lemma FunctionCallInv(cfg: Config, s: System, provider: string, call: Call)
    requires Inv(cfg, s)
    ensures Inv(cfg, Apply(cfg, s, FunctionCall(0, provider, call)))
  {
    hide LogInv, SentExactly, Accounted, WithinLimits, Spoken, Concat, OnCall;
    if InFlight(s.runners) && !s.runners[0].broken && !s.deleted {
      if s.turn.completed {
        LateCall(cfg, s.turn, provider, call);
        Unchanged(cfg, s, OnCall(cfg, s.turn, provider, call));
      } else {
        CallStep(cfg, s.turn, provider, call, s.sent);
        CallbackInv(cfg, s, OnCall(cfg, s.turn, provider, call).0, OnCall(cfg, s.turn, provider, call).1, "");
      }
    }
  }

  lemma LateCall(cfg: Config, t: Turn, provider: string, call: Call)
    ensures t.completed ==> OnCall(cfg, t, provider, call) == (t, true)
  {
  }

  lemma TimerInv(cfg: Config, s: System)
    requires SmallFit(cfg) && Inv(cfg, s)
    ensures Inv(cfg, WithTurn(s, FlushTimer(cfg, s.turn)))
  {
    hide SentExactly, Accounted, WithinLimits, Spoken, Concat, Flush, FinishFailed, Grammar, Short;
    if !s.turn.completed {
      FlushKeeps(cfg, s.turn.log);
      var (l, ok) := Flush(cfg, s.turn.log);
      DropKeeps(cfg, l);
      if !ok {
        FailedInv(cfg, s.turn.(log := l.(pendingOutput := "")), false, WithTurn(s, FlushTimer(cfg, s.turn)));
      }
    }
  }

  lemma StopInv(cfg: Config, s: System)
    requires SmallFit(cfg) && Inv(cfg, s)
    ensures Inv(cfg, WithTurn(s, DeadlinePassed(cfg, s.turn))) && Inv(cfg, WithTurn(s, Cancelled(cfg, s.turn)))
  {
    hide LogInv, SentExactly, Accounted, WithinLimits, Spoken, Concat, FinishFailed, FinishCancelled;
    if !s.turn.completed {
      FailedInv(cfg, s.turn, true, WithTurn(s, DeadlinePassed(cfg, s.turn)));
      CancelledInv(cfg, s.turn, WithTurn(s, Cancelled(cfg, s.turn)));
    }
  }

  lemma InitInv(cfg: Config, s: System, e: Event)
    requires Inv(cfg, s) && (e.InitDone? || e.InitFailed? || e.RunnerStarts?)
    ensures Inv(cfg, Apply(cfg, s, e))
  {
    hide LogInv, SentExactly, Accounted, WithinLimits, Spoken, Concat;
  }

  lemma RunnerFailsInv(cfg: Config, s: System, failure: Failure, invalid: bool)
    requires SmallFit(cfg) && Inv(cfg, s)
    ensures Inv(cfg, Apply(cfg, s, RunnerFails(0, failure, invalid)))
  {
    hide LogInv, SentExactly, Accounted, WithinLimits, Spoken, Concat, ProviderFailed;
    if InFlight(s.runners) && !s.deleted {
      assert Without(s.runners, 0) == [];
      FailsInv(cfg, s, failure, invalid);
    }
  }

  /** There is only one provider call an event can be about. */
  lemma OnlyOne(cfg: Config, s: System, e: Event)
    requires |s.runners| <= 1
    ensures (e.Created? || e.TextDelta? || e.FunctionCall? || e.RunnerFails? || e.RunnerEnds?) && e.n > 0 ==> Apply(cfg, s, e) == s
  {
  }

  lemma ApplyInv(cfg: Config, s: System, e: Event)
    requires SmallFit(cfg) && Inv(cfg, s)
    ensures Inv(cfg, Apply(cfg, s, e))
  {
    hide LogInv, CallsInv, TextInv, Continue, FlushTimer, DeadlinePassed, Cancelled;
    OnlyOne(cfg, s, e);
    match e
    case Created(n, responseID, session) => if n == 0 { CreatedInv(cfg, s, responseID, session); }
    case TextDelta(n, delta) => if n == 0 { TextDeltaInv(cfg, s, delta); }
    case FunctionCall(n, provider, call) => if n == 0 { FunctionCallInv(cfg, s, provider, call); }
    case RunnerFails(n, failure, invalid) => if n == 0 { RunnerFailsInv(cfg, s, failure, invalid); }
    case RunnerEnds(n, text, status, responseID, session, late) =>
      if n == 0 { EndsInv(cfg, s, text, status, responseID, session, late); }
    case TimerFires => TimerInv(cfg, s);
    case DeadlineFires => StopInv(cfg, s);
    case CancelAsked => StopInv(cfg, s);
    case ResultsArrive(results) => if DistinctResults(results) { ContinueInv(cfg, s, results); }
    case _ => InitInv(cfg, s, e);
  }

  lemma {:induction false} RunInv(cfg: Config, s: System, events: seq<Event>)
    requires SmallFit(cfg) && Inv(cfg, s)
    ensures Inv(cfg, Run(cfg, s, events))
  {
    if events != [] {
      var last := |events| - 1;
      RunInv(cfg, s, events[..last]);
      ApplyInv(cfg, Run(cfg, s, events[..last]), events[last]);
    }
  }
}
