/** The turn as the adapter keeps it: fields that its critical sections update in place. */
module AdapterTurnState {
  import opened Wrappers
  import opened Text
  import opened Sorting
  import opened AdapterTurn
  import opened AdapterLog

  class TurnState {
    const cfg: Config

    var log: Log
    var text: string
    var calls: Calls
    var at: Checkpoint
    var completed: bool
    var providerInFlight: nat
    var uncertain: bool
    var waiting: bool
    var continuationInFlight: bool
    var initializing: bool

    function Model(): Turn
      reads this
    {
      Turn(log, text, calls, at, completed, providerInFlight, uncertain, waiting, continuationInFlight, initializing)
    }

    constructor (cfg: Config, agentSessionID: string, previousResponse: string)
      ensures this.cfg == cfg && Model() == NewTurn(agentSessionID, previousResponse)
    {
      this.cfg := cfg;
      log, text, calls, at := EMPTY_LOG, "", NO_CALLS, Checkpoint("", agentSessionID, previousResponse);
      completed, providerInFlight, uncertain := false, 0, false;
      waiting, continuationInFlight, initializing := false, false, true;
    }

    // -------------------------------------------------------------------------
    // Frames
    // -------------------------------------------------------------------------

    method AppendFrame(f: Frame) returns (ok: bool)
      modifies this`log
      ensures (log, ok) == Append(cfg, old(log), f)
    {
      var frame := f.(seqNo := |log.frames| + 1, identity := cfg.identity);
      if !cfg.fits(frame) {
        return false;
      }
      log := log.(frames := log.frames + [frame]);
      return true;
    }

    predicate HasRoom(additional: nat)
      reads this`log
    {
      cfg.maxEvents > 0 ==> |log.frames| + additional < cfg.maxEvents
    }

    method EnsureTurnStarted() returns (ok: bool)
      modifies this`log
      ensures (log, ok) == EnsureStarted(cfg, old(log))
    {
      if log.started {
        return true;
      }
      if !HasRoom(1) {
        return false;
      }
      ok := AppendFrame(Plain(TurnStarted, "", ""));
      if ok {
        log := log.(started := true);
      }
    }

    method FlushOutput() returns (ok: bool)
      modifies this`log
      ensures (log, ok) == Flush(cfg, old(log))
    {
      log := log.(flushTimer := false);
      if log.pendingOutput == "" {
        return true;
      }
      if !HasRoom(1) {
        return false;
      }
      var chunk := log.pendingOutput;
      log := log.(pendingOutput := "");
      ok := AppendFrame(Plain(RuntimeOutput, chunk, ""));
    }

    // -------------------------------------------------------------------------
    // The end of the turn
    // -------------------------------------------------------------------------

    method CloseLog(last: Frame)
      modifies this`log
      ensures log == Closed(cfg, old(log), last)
    {
      if !log.started {
        var ok := AppendFrame(Plain(TurnStarted, "", ""));
        if ok {
          log := log.(started := true);
        }
      }
      var _ := FlushOutput();
      log := log.(pendingOutput := "");
      var fitted := AppendFrame(last);
      if !fitted {
        var _ := AppendFrame(MINIMAL_FAILURE);
      }
    }

    method EndTurn()
      modifies this
      ensures Model() == Terminal(old(Model()), old(log))
    {
      completed := true;
      log := log.(flushTimer := false, pendingOutput := "");
      text := "";
      calls := calls.(pendingTools := map[], pendingCalls := map[], providerCallIDs := map[], buffered := map[], emitted := {});
    }

    method FinishAsCompleted()
      modifies this
      ensures Model() == FinishCompleted(cfg, old(Model()))
      ensures completed && (old(at.responseID) != "" ==> at.previousResponse == old(at.responseID))
      ensures SmallFit(cfg) ==> EndsWith(old(log), log) && LastIn(log).kind in {TurnCompleted, TurnFailed}
                                && (if LastIn(log).kind.TurnCompleted? then LastIn(log).text == old(text) else !LastIn(log).retryable)
    {
      ClosedEnds(cfg, log, Plain(TurnCompleted, text, ""));
      CloseLog(Plain(TurnCompleted, text, ""));
      if at.responseID != "" {
        at := at.(previousResponse := at.responseID);
      }
      EndTurn();
    }

    method FinishAsFailed(mayRetry: bool)
      modifies this
      ensures Model() == FinishFailed(cfg, old(Model()), mayRetry)
      ensures completed
      ensures SmallFit(cfg) ==> EndsWith(old(log), log) && LastIn(log).kind.TurnFailed?
                                && (LastIn(log).retryable ==> mayRetry && !old(uncertain || calls.exposedWrite) && !cfg.observed)
    {
      var retryable := mayRetry;
      if uncertain || calls.exposedWrite || cfg.observed {
        retryable := false;
      }
      ClosedEnds(cfg, log, Plain(TurnFailed, "", "").(retryable := retryable));
      CloseLog(Plain(TurnFailed, "", "").(retryable := retryable));
      EndTurn();
    }

    method FinishAsCancelled()
      modifies this
      ensures Model() == FinishCancelled(cfg, old(Model()))
    {
      CloseLog(Plain(TurnCancelled, "", ""));
      EndTurn();
    }

    // -------------------------------------------------------------------------
    // Callbacks, timer, deadline and cancellation
    // -------------------------------------------------------------------------

    method ResponseCreated(session: string) returns (ok: bool)
      modifies this
      ensures (Model(), ok) == OnCreated(cfg, old(Model()), session)
    {
      if completed {
        return true;
      }
      if session != "" {
        at := at.(agentSessionID := session);
      }
      ok := EnsureTurnStarted();
    }

    method TextArrives(delta: string) returns (ok: bool)
      modifies this
      ensures (Model(), ok) == OnText(cfg, old(Model()), delta)
    {
      if completed {
        return true;
      }
      ok := EnsureTurnStarted();
      if !ok || ByteLength(text) + ByteLength(delta) > cfg.maxOutputBytes {
        return false;
      }
      text := text + delta;
      ok := TakeOutput(delta);
    }

    method TakeOutput(delta: string) returns (ok: bool)
      modifies this`log
      ensures (log, ok) == TakeText(cfg, old(log), delta)
    {
      log := log.(pendingOutput := log.pendingOutput + delta);
      if ByteLength(log.pendingOutput) >= FLUSH_BYTES {
        ok := FlushOutput();
      } else {
        log := log.(flushTimer := true);
        ok := true;
      }
    }

    method RecordFunctionCall(provider: string, c: Call) returns (ok: bool)
      modifies this
      ensures (Model(), ok) == OnCall(cfg, old(Model()), provider, c)
    {
      hide CallBytes, ReadyForCall, Append, AddCall, WithinCallLimits;
      var callID := cfg.orkaCallID(provider);
      if completed {
        return true;
      }
      if !cfg.brokered || c.name !in cfg.tools || callID in calls.submitted {
        return false;
      }
      if callID in calls.pendingTools {
        return calls.pendingTools[callID] == c.name && callID in calls.pendingCalls && calls.pendingCalls[callID] == c
               && callID in calls.providerCallIDs && calls.providerCallIDs[callID] == provider;
      }
      ok := PrepareForCall();
      if !ok {
        return false;
      }
      ok := AddPendingCall(callID, provider, c);
      if ok {
        ok := AppendFrame(Plain(ToolCallRequested, c.arguments, callID));
      }
    }

    method PrepareForCall() returns (ok: bool)
      modifies this`log
      ensures (log, ok) == ReadyForCall(cfg, old(log))
    {
      ok := EnsureTurnStarted();
      if ok {
        ok := FlushOutput();
        ok := ok && HasRoom(1);
      }
    }

    /** The call is counted and kept, unless a limit forbids it. */
    method AddPendingCall(callID: string, provider: string, c: Call) returns (within: bool)
      modifies this`calls
      ensures var s := old(calls).(exposedWrite := old(calls).exposedWrite || c.name in cfg.writeTools);
              && within == WithinCallLimits(cfg, s, CallBytes(callID, provider, c))
              && calls == if within then AddCall(s, callID, provider, c) else s
    {
      hide CallBytes;
      if c.name in cfg.writeTools {
        calls := calls.(exposedWrite := true);
      }
      if cfg.maxCalls > 0 && calls.callCount >= cfg.maxCalls {
        return false;
      }
      var bytes := CallBytes(callID, provider, c);
      if cfg.maxTurnBytes > 0 && calls.stateBytes + bytes > cfg.maxTurnBytes {
        return false;
      }
      calls := calls.(callCount := calls.callCount + 1, stateBytes := calls.stateBytes + bytes);
      calls := calls.(pendingTools := calls.pendingTools[callID := c.name],
                      pendingCalls := calls.pendingCalls[callID := c],
                      providerCallIDs := calls.providerCallIDs[callID := provider]);
      return true;
    }

    method TimerFires()
      modifies this
      ensures Model() == FlushTimer(cfg, old(Model()))
      ensures old(completed) ==> completed && log.frames == old(log.frames)
      ensures !completed ==> log.pendingOutput == "" && Spoken(log.frames) == Spoken(old(log.frames)) + old(log.pendingOutput)
      ensures completed && !old(completed) && SmallFit(cfg) ==>
                EndsWith(old(log), log) && LastIn(log).kind.TurnFailed? && !LastIn(log).retryable
    {
      hide Spoken, Closed, FinishFailed, Flush, Numbered;
      FlushSpoken(cfg, log.(flushTimer := false));
      FlushWithoutTimer(cfg, log);
      log := log.(flushTimer := false);
      if !completed {
        var ok := FlushOutput();
        if !ok {
          log := log.(pendingOutput := "");
          FinishAsFailed(false);
        }
      }
    }

    method DeadlineFires()
      modifies this
      ensures Model() == DeadlinePassed(cfg, old(Model()))
    {
      if !completed {
        FinishAsFailed(true);
      }
    }

    method CancelTurn()
      modifies this
      ensures Model() == Cancelled(cfg, old(Model()))
    {
      if !completed {
        FinishAsCancelled();
      }
    }

    // -------------------------------------------------------------------------
    // Tool results
    // -------------------------------------------------------------------------

    /** The results to keep, in order, or why none is kept; and their size. */
    method StageResults(results: seq<ToolResult>) returns (r: Result<seq<ToolResult>, Refusal>, bytes: nat)
      ensures r == Staged(calls, completed, results)
      ensures r.Ok? ==> bytes == TotalBytes(cfg, r.value)
    {
      hide Staged, TotalBytes;
      var staged: seq<ToolResult> := [];
      bytes := 0;
      NothingStaged(cfg, calls, completed);
      for i := 0 to |results|
        invariant Staged(calls, completed, results[..i]) == Ok(staged)
        invariant bytes == TotalBytes(cfg, staged)
      {
        var result := results[i];
        StagedNext(cfg, calls, completed, results, i, staged);
        if result.callID in calls.submitted {
          if calls.submitted[result.callID] != result {
            RefusedPrefix(calls, completed, results, i + 1, Conflicting);
            return Err(Conflicting), bytes;
          }
        } else if completed {
          RefusedPrefix(calls, completed, results, i + 1, TooLate);
          return Err(TooLate), bytes;
        } else if result.callID !in calls.pendingTools {
          RefusedPrefix(calls, completed, results, i + 1, NotPending);
          return Err(NotPending), bytes;
        } else if result.callID in calls.buffered {
          if calls.buffered[result.callID] != result {
            RefusedPrefix(calls, completed, results, i + 1, Conflicting);
            return Err(Conflicting), bytes;
          }
        } else {
          bytes := bytes + cfg.resultBytes(result);
          staged := staged + [result];
        }
      }
      assert results[..|results|] == results;
      return Ok(staged), bytes;
    }

    method ContinueTurn(results: seq<ToolResult>) returns (r: Result<Option<Request>, Refusal>)
      modifies this
      ensures (Model(), r) == Continue(cfg, old(Model()), results)
    {
      var staged, bytes := StageResults(results);
      if staged.Err? {
        return Err(staged.error);
      }
      if cfg.maxTurnBytes > 0 && calls.stateBytes + bytes > cfg.maxTurnBytes {
        return Err(OverLimit);
      }
      KeepResults(staged.value);
      if completed || staged.value == [] || calls.pendingTools == map[] || !waiting || !AllBuffered() {
        return Ok(None);
      }
      var request := DispatchContinuation();
      return Ok(request);
    }

    predicate AllBuffered()
      reads this
    {
      Answered(calls)
    }

    method KeepResults(staged: seq<ToolResult>)
      modifies this`calls
      ensures calls == Stage(cfg, old(calls), staged)
    {
      for i := 0 to |staged|
        invariant calls == Stage(cfg, old(calls), staged[..i])
      {
        assert staged[..i + 1][..i] == staged[..i];
        calls := calls.(stateBytes := calls.stateBytes + cfg.resultBytes(staged[i]),
                        buffered := calls.buffered[staged[i].callID := staged[i]]);
      }
      assert staged[..|staged|] == staged;
    }

    /** The next provider call with all results, or the end of the turn. */
    method DispatchContinuation() returns (request: Option<Request>)
      requires AllBuffered()
      modifies this
      ensures (Model(), request) == Dispatch(cfg, old(Model()))
    {
      request := PrepareContinuation();
      if request.None? {
        FinishAsFailed(false);
      }
    }

    method PrepareContinuation() returns (request: Option<Request>)
      requires AllBuffered()
      modifies this
      ensures (Model(), request) == Prepare(cfg, old(Model()))
    {
      var callIDs := Sort(calls.pendingTools.Keys);
      if continuationInFlight || !HasRoom(|callIDs|) {
        return None;
      }
      var outputs, ok := EmitAll(callIDs);
      if !ok {
        return None;
      }
      var previous := if at.responseID != "" then at.responseID else at.previousResponse;
      if previous == "" {
        return None;
      }
      calls := calls.(submitted := calls.submitted + calls.buffered);
      calls := calls.(pendingTools := map[], pendingCalls := map[], providerCallIDs := map[], buffered := map[]);
      waiting := false;
      continuationInFlight := true;
      return Some(Request(previous, at.agentSessionID, outputs));
    }

    method EmitAll(callIDs: seq<string>) returns (outputs: seq<FunctionOutput>, ok: bool)
      requires forall i :: 0 <= i < |callIDs| ==> callIDs[i] in calls.buffered && callIDs[i] in calls.providerCallIDs
      modifies this`log, this`calls
      ensures (log, calls.emitted, ok) == EmitResults(cfg, old(log), old(calls), callIDs)
      ensures calls == old(calls).(emitted := calls.emitted)
      ensures ok ==> outputs == Outputs(old(calls), callIDs)
    {
      outputs := [];
      ghost var was := calls;
      for i := 0 to |callIDs|
        invariant (log, calls.emitted, true) == EmitResults(cfg, old(log), was, callIDs[..i])
        invariant calls == was.(emitted := calls.emitted)
        invariant outputs == Outputs(was, callIDs[..i])
      {
        assert callIDs[..i + 1][..i] == callIDs[..i];
        var result := calls.buffered[callIDs[i]];
        var output := match result.error case Some(e) => e case None => result.output;
        outputs := outputs + [FunctionOutput(calls.providerCallIDs[callIDs[i]], output)];
        assert outputs == Outputs(was, callIDs[..i + 1]);
        if callIDs[i] !in calls.emitted {
          ok := AppendFrame(Plain(ToolResultReceived, result.output, callIDs[i]));
          if !ok {
            StoppedPrefix(cfg, old(log), was, callIDs, i + 1);
            return outputs, false;
          }
          calls := calls.(emitted := calls.emitted + {callIDs[i]});
        }
      }
      assert callIDs[..|callIDs|] == callIDs;
      ok := true;
    }

    // -------------------------------------------------------------------------
    // Provider calls
    // -------------------------------------------------------------------------

    method ReleaseProvider()
      modifies this`providerInFlight, this`continuationInFlight
      ensures Model() == Released(old(Model()))
    {
      if providerInFlight > 0 {
        providerInFlight := providerInFlight - 1;
      }
      continuationInFlight := false;
    }

    method ProviderCallFails(failure: Failure, checkpointInvalid: bool)
      modifies this
      ensures Model() == ProviderFailed(cfg, old(Model()), failure, checkpointInvalid)
    {
      ReleaseProvider();
      if completed {
        return;
      }
      if checkpointInvalid {
        at := at.(agentSessionID := "", previousResponse := "");
      }
      match failure {
        case TimedOut => FinishAsFailed(true);
        case Interrupted => FinishAsCancelled();
        case Broken(retryable) => FinishAsFailed(retryable);
      }
    }

    method ProviderCallEnds(id: string, session: string, status: Status, late: bool) returns (request: Option<Request>)
      modifies this
      ensures (Model(), request) == ProviderDone(cfg, old(Model()), id, session, status, late)
    {
      hide Conclude, FinishFailed;
      ReleaseProvider();
      if completed {
        return None;
      }
      uncertain := false;
      if late {
        FinishAsFailed(true);
        return None;
      }
      if id != "" {
        at := at.(responseID := id);
      }
      if session != "" {
        at := at.(agentSessionID := session);
      }
      request := ConcludeCall(status);
    }

    method ConcludeCall(status: Status) returns (request: Option<Request>)
      modifies this
      ensures (Model(), request) == Conclude(cfg, old(Model()), status)
    {
      hide EnsureStarted, Flush, FinishFailed, ByStatus;
      var ok := EnsureTurnStarted();
      if !ok {
        FinishAsFailed(false);
        return None;
      }
      ok := FlushOutput();
      if !ok {
        log := log.(pendingOutput := "");
        FinishAsFailed(false);
        return None;
      }
      request := ActOnStatus(status);
    }

    method ActOnStatus(status: Status) returns (request: Option<Request>)
      modifies this
      ensures (Model(), request) == ByStatus(cfg, old(Model()), status)
    {
      request := None;
      match status {
        case CompletedStatus =>
          if calls.pendingTools == map[] {
            FinishAsCompleted();
          } else {
            waiting := true;
            if AllBuffered() {
              request := DispatchContinuation();
            }
          }
        case FailedStatus(retryable) => FinishAsFailed(retryable);
        case IncompleteStatus => FinishAsFailed(false);
        case CancelledStatus => FinishAsCancelled();
        case InvalidStatus => FinishAsFailed(false);
      }
    }
  }

  lemma FlushWithoutTimer(cfg: Config, log: Log)
    ensures Flush(cfg, log) == Flush(cfg, log.(flushTimer := false))
  {
  }

  lemma NothingStaged(cfg: Config, s: Calls, completed: bool)
    ensures Staged(s, completed, []) == Ok([]) && TotalBytes(cfg, []) == 0
  {
  }

  /** One more result is kept, was kept before, or refused. */
  lemma StagedNext(cfg: Config, s: Calls, completed: bool, results: seq<ToolResult>, i: nat, staged: seq<ToolResult>)
    requires i < |results| && Staged(s, completed, results[..i]) == Ok(staged)
    ensures var r, next := results[i], Staged(s, completed, results[..i + 1]);
            if r.callID in s.submitted then next == if s.submitted[r.callID] != r then Err(Conflicting) else Ok(staged)
            else if completed then next == Err(TooLate)
            else if r.callID !in s.pendingTools then next == Err(NotPending)
            else if r.callID in s.buffered then next == if s.buffered[r.callID] != r then Err(Conflicting) else Ok(staged)
            else next == Ok(staged + [r])
    ensures TotalBytes(cfg, staged + [results[i]]) == TotalBytes(cfg, staged) + cfg.resultBytes(results[i])
  {
    assert results[..i + 1][..i] == results[..i];
    assert (staged + [results[i]])[..|staged|] == staged;
  }

  lemma {:induction false} RefusedPrefix(s: Calls, completed: bool, results: seq<ToolResult>, n: nat, e: Refusal)
    requires n <= |results| && Staged(s, completed, results[..n]) == Err(e)
    ensures Staged(s, completed, results) == Err(e)
    decreases |results|
  {
    if n < |results| {
      var last := |results| - 1;
      assert results[..last][..n] == results[..n];
      RefusedPrefix(s, completed, results[..last], n, e);
    } else {
      assert results[..n] == results;
    }
  }

  lemma {:induction false} StoppedPrefix(cfg: Config, log: Log, s: Calls, order: seq<string>, n: nat)
    requires n <= |order| && forall i :: 0 <= i < |order| ==> order[i] in s.buffered
    requires !EmitResults(cfg, log, s, order[..n]).2
    ensures EmitResults(cfg, log, s, order) == EmitResults(cfg, log, s, order[..n])
    decreases |order|
  {
    if n < |order| {
      var last := |order| - 1;
      assert order[..last][..n] == order[..n];
      StoppedPrefix(cfg, log, s, order[..last], n);
    } else {
      assert order[..n] == order;
    }
  }
}
