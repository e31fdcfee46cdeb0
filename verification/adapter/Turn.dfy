/**
 One turn of the harness adapter. Every function is what one critical section does to the turn:
 provider callbacks, the output timer, the deadline, cancellation, tool results and the start
 and end of a provider call.
 */
module AdapterTurn {
  import opened Wrappers
  import opened Text
  import opened Sorting

  const FLUSH_BYTES: nat := 4096

  datatype FrameKind =
    | TurnStarted | RuntimeOutput | ToolCallRequested | ToolResultReceived
    | TurnCompleted | TurnFailed | TurnCancelled
    | OtherKind | UnknownKind

  datatype Identity = Identity(session: string, turn: string, correlation: string)

  datatype Frame = Frame(
    kind: FrameKind,
    seqNo: int,
    identity: Identity,
    text: string,
    callID: string,
    hasCompleted: bool,
    hasFailed: bool,
    retryable: bool)

  // Digests of calls and results are represented by what they are digests of.
  datatype Call = Call(name: string, arguments: string)

  datatype ToolResult = ToolResult(callID: string, output: string, error: Option<string>)

  datatype FunctionOutput = FunctionOutput(callID: string, output: string)

  datatype Config = Config(
    identity: Identity,
    maxEvents: int,
    maxOutputBytes: int,
    maxCalls: int,
    maxTurnBytes: int,
    brokered: bool,
    observed: bool,
    tools: set<string>,
    writeTools: set<string>,
    fits: Frame -> bool,
    orkaCallID: string -> string,
    resultBytes: ToolResult -> nat)

  // The frames sent to the caller, and the output that waits for its frame.
  datatype Log = Log(frames: seq<Frame>, started: bool, pendingOutput: string, flushTimer: bool)

  // The tool calls of a turn: pending ones, results that wait for the others, and answered ones.
  datatype Calls = Calls(
    pendingTools: map<string, string>,
    pendingCalls: map<string, Call>,
    providerCallIDs: map<string, string>,
    buffered: map<string, ToolResult>,
    submitted: map<string, ToolResult>,
    emitted: set<string>,
    stateBytes: int,
    callCount: int,
    exposedWrite: bool)

  datatype Checkpoint = Checkpoint(responseID: string, agentSessionID: string, previousResponse: string)

  datatype Turn = Turn(
    log: Log,
    text: string,
    calls: Calls,
    at: Checkpoint,
    completed: bool,
    providerInFlight: nat,
    uncertain: bool,
    waiting: bool,
    continuationInFlight: bool,
    initializing: bool)

  const EMPTY_LOG := Log([], false, "", false)

  const NO_CALLS := Calls(map[], map[], map[], map[], map[], {}, 0, 0, false)

  function NewTurn(agentSessionID: string, previousResponse: string): Turn {
    Turn(EMPTY_LOG, "", NO_CALLS, Checkpoint("", agentSessionID, previousResponse), false, 0, false, false, false, true)
  }

  // ---------------------------------------------------------------------------
  // Frames
  // ---------------------------------------------------------------------------

  function Plain(kind: FrameKind, text: string, callID: string): Frame {
    Frame(kind, 0, Identity("", "", ""), text, callID, kind.TurnCompleted?, kind.TurnFailed?, false)
  }

  const MINIMAL_FAILURE := Plain(TurnFailed, "", "")

  function Numbered(cfg: Config, log: Log, f: Frame): Frame {
    f.(seqNo := |log.frames| + 1, identity := cfg.identity)
  }

  /** The log with one more frame, or the log as it was when the frame is too large. */
  function Append(cfg: Config, log: Log, f: Frame): (Log, bool) {
    if cfg.fits(Numbered(cfg, log, f)) then (log.(frames := log.frames + [Numbered(cfg, log, f)]), true) else (log, false)
  }

  predicate Room(cfg: Config, log: Log, additional: nat) {
    cfg.maxEvents > 0 ==> |log.frames| + additional < cfg.maxEvents
  }

  function AppendStarted(cfg: Config, log: Log): (Log, bool) {
    var (l, ok) := Append(cfg, log, Plain(TurnStarted, "", ""));
    if ok then (l.(started := true), true) else (log, false)
  }

  function EnsureStarted(cfg: Config, log: Log): (Log, bool) {
    if log.started then (log, true)
    else if !Room(cfg, log, 1) then (log, false)
    else AppendStarted(cfg, log)
  }

  function Flush(cfg: Config, log: Log): (Log, bool) {
    var l := log.(flushTimer := false);
    if log.pendingOutput == "" then (l, true)
    else if !Room(cfg, log, 1) then (l, false)
    else Append(cfg, l.(pendingOutput := ""), Plain(RuntimeOutput, log.pendingOutput, ""))
  }

  // ---------------------------------------------------------------------------
  // The end of a turn
  // ---------------------------------------------------------------------------

  /** Started and flushed, as far as that is still possible. */
  function Closing(cfg: Config, log: Log): Log {
    var l := if log.started then log else AppendStarted(cfg, log).0;
    Flush(cfg, l).0.(pendingOutput := "")
  }

  /** The closed log with its last frame. */
  function Closed(cfg: Config, log: Log, last: Frame): Log {
    var (l, ok) := Append(cfg, Closing(cfg, log), last);
    if ok then l else Append(cfg, l, MINIMAL_FAILURE).0
  }

  function Terminal(t: Turn, log: Log): Turn {
    t.(completed := true, log := log.(flushTimer := false, pendingOutput := ""), text := "",
       calls := t.calls.(pendingTools := map[], pendingCalls := map[], providerCallIDs := map[], buffered := map[], emitted := {}))
  }

  function FinishCompleted(cfg: Config, t: Turn): Turn {
    Terminal(t.(at := if t.at.responseID != "" then t.at.(previousResponse := t.at.responseID) else t.at),
             Closed(cfg, t.log, Plain(TurnCompleted, t.text, "")))
  }

  /** A failure is retryable only when nothing of the turn can have happened unseen or been written. */
  function FinishFailed(cfg: Config, t: Turn, retryable: bool): Turn {
    Terminal(t, Closed(cfg, t.log, Plain(TurnFailed, "", "").(
                         retryable := retryable && !t.uncertain && !t.calls.exposedWrite && !cfg.observed)))
  }

  function FinishCancelled(cfg: Config, t: Turn): Turn {
    Terminal(t, Closed(cfg, t.log, Plain(TurnCancelled, "", "")))
  }

  // ---------------------------------------------------------------------------
  // Callbacks of a provider call; each returns whether the provider call may go on
  // ---------------------------------------------------------------------------

  function OnLog(t: Turn, outcome: (Log, bool)): (Turn, bool) {
    (t.(log := outcome.0), outcome.1)
  }

  function OnCreated(cfg: Config, t: Turn, session: string): (Turn, bool) {
    if t.completed then (t, true)
    else OnLog(if session != "" then t.(at := t.at.(agentSessionID := session)) else t, EnsureStarted(cfg, t.log))
  }

  /** The log takes in some text, and sends it when there is enough. */
  function TakeText(cfg: Config, log: Log, delta: string): (Log, bool) {
    var l := log.(pendingOutput := log.pendingOutput + delta);
    if ByteLength(l.pendingOutput) >= FLUSH_BYTES then Flush(cfg, l) else (l.(flushTimer := true), true)
  }

  function OnText(cfg: Config, t: Turn, delta: string): (Turn, bool) {
    if t.completed then (t, true)
    else
      var (l, ok) := EnsureStarted(cfg, t.log);
      if !ok || ByteLength(t.text) + ByteLength(delta) > cfg.maxOutputBytes then (t.(log := l), false)
      else OnLog(t.(text := t.text + delta), TakeText(cfg, l, delta))
  }

  function CallBytes(callID: string, provider: string, c: Call): nat {
    ByteLength(callID) + ByteLength(provider) + ByteLength(c.name) + ByteLength(c.arguments)
  }

  /** The call joins the ones that wait for a result. */
  function AddCall(s: Calls, callID: string, provider: string, c: Call): Calls {
    s.(callCount := s.callCount + 1,
       stateBytes := s.stateBytes + CallBytes(callID, provider, c),
       pendingTools := s.pendingTools[callID := c.name],
       pendingCalls := s.pendingCalls[callID := c],
       providerCallIDs := s.providerCallIDs[callID := provider])
  }

  predicate WithinCallLimits(cfg: Config, s: Calls, bytes: nat) {
    && (cfg.maxCalls > 0 ==> s.callCount < cfg.maxCalls)
    && (cfg.maxTurnBytes > 0 ==> s.stateBytes + bytes <= cfg.maxTurnBytes)
  }

  /** Started, flushed, and with room for one more frame. */
  function ReadyForCall(cfg: Config, log: Log): (Log, bool) {
    var (l1, started) := EnsureStarted(cfg, log);
    if !started then (l1, false)
    else
      var (l2, flushed) := Flush(cfg, l1);
      (l2, flushed && Room(cfg, l2, 1))
  }

  predicate SameCall(s: Calls, callID: string, provider: string, c: Call) {
    && callID in s.pendingTools && s.pendingTools[callID] == c.name
    && callID in s.pendingCalls && s.pendingCalls[callID] == c
    && callID in s.providerCallIDs && s.providerCallIDs[callID] == provider
  }

  function OnCall(cfg: Config, t: Turn, provider: string, c: Call): (Turn, bool) {
    var callID := cfg.orkaCallID(provider);
    if t.completed then (t, true)
    else if !cfg.brokered || c.name !in cfg.tools || callID in t.calls.submitted then (t, false)
    else if callID in t.calls.pendingTools then (t, SameCall(t.calls, callID, provider, c))
    else
      var (l, ready) := ReadyForCall(cfg, t.log);
      if !ready then (t.(log := l), false)
      else
        var s := t.calls.(exposedWrite := t.calls.exposedWrite || c.name in cfg.writeTools);
        if !WithinCallLimits(cfg, s, CallBytes(callID, provider, c)) then (t.(log := l, calls := s), false)
        else
          OnLog(t.(calls := AddCall(s, callID, provider, c)), Append(cfg, l, Plain(ToolCallRequested, c.arguments, callID)))
  }

  // ---------------------------------------------------------------------------
  // Timer, deadline and cancellation
  // ---------------------------------------------------------------------------

  function FlushTimer(cfg: Config, t: Turn): Turn {
    if t.completed then t.(log := t.log.(flushTimer := false))
    else
      var (l, ok) := Flush(cfg, t.log);
      if ok then t.(log := l) else FinishFailed(cfg, t.(log := l.(pendingOutput := "")), false)
  }

  function DeadlinePassed(cfg: Config, t: Turn): Turn {
    if t.completed then t else FinishFailed(cfg, t, true)
  }

  function Cancelled(cfg: Config, t: Turn): Turn {
    if t.completed then t else FinishCancelled(cfg, t)
  }

  // ---------------------------------------------------------------------------
  // Tool results
  // ---------------------------------------------------------------------------

  datatype Refusal = Conflicting | TooLate | NotPending | OverLimit

  /** The results that are new, in order; or why the whole list is refused. */
  function Staged(s: Calls, completed: bool, results: seq<ToolResult>): Result<seq<ToolResult>, Refusal> {
    if results == [] then Ok([])
    else
      var last := results[|results| - 1];
      match Staged(s, completed, results[..|results| - 1])
      case Err(e) => Err(e)
      case Ok(staged) =>
        if last.callID in s.submitted then
          if s.submitted[last.callID] != last then Err(Conflicting) else Ok(staged)
        else if completed then Err(TooLate)
        else if last.callID !in s.pendingTools then Err(NotPending)
        else if last.callID in s.buffered then
          if s.buffered[last.callID] != last then Err(Conflicting) else Ok(staged)
        else Ok(staged + [last])
  }

  function TotalBytes(cfg: Config, results: seq<ToolResult>): nat {
    if results == [] then 0
    else TotalBytes(cfg, results[..|results| - 1]) + cfg.resultBytes(results[|results| - 1])
  }

  function Buffered(buffered: map<string, ToolResult>, staged: seq<ToolResult>): map<string, ToolResult> {
    if staged == [] then buffered
    else Buffered(buffered, staged[..|staged| - 1])[staged[|staged| - 1].callID := staged[|staged| - 1]]
  }

  function Stage(cfg: Config, s: Calls, staged: seq<ToolResult>): Calls {
    s.(stateBytes := s.stateBytes + TotalBytes(cfg, staged), buffered := Buffered(s.buffered, staged))
  }

  predicate DistinctResults(results: seq<ToolResult>) {
    forall i, j :: 0 <= i < j < |results| ==> results[i].callID != results[j].callID
  }

  // A provider call that is to be made.
  datatype Request = Request(previous: string, session: string, outputs: seq<FunctionOutput>)

  function OutputOf(s: Calls, callID: string): FunctionOutput
    requires callID in s.buffered && callID in s.providerCallIDs
  {
    var r := s.buffered[callID];
    FunctionOutput(s.providerCallIDs[callID], match r.error case Some(e) => e case None => r.output)
  }

  function Outputs(s: Calls, order: seq<string>): seq<FunctionOutput>
    requires forall i :: 0 <= i < |order| ==> order[i] in s.buffered && order[i] in s.providerCallIDs
  {
    seq(|order|, i requires 0 <= i < |order| => OutputOf(s, order[i]))
  }

  /** A result frame for each call that has none yet; stops at the first that is too large. */
  function EmitResults(cfg: Config, log: Log, s: Calls, order: seq<string>): (Log, set<string>, bool)
    requires forall i :: 0 <= i < |order| ==> order[i] in s.buffered
    decreases |order|
  {
    if order == [] then (log, s.emitted, true)
    else
      var n := |order| - 1;
      var (l, emitted, ok) := EmitResults(cfg, log, s, order[..n]);
      if !ok || order[n] in emitted then (l, emitted, ok)
      else
        var (l1, fitted) := Append(cfg, l, Plain(ToolResultReceived, s.buffered[order[n]].output, order[n]));
        if fitted then (l1, emitted + {order[n]}, true) else (l, emitted, false)
  }

  function Submitted(s: Calls, emitted: set<string>): Calls {
    s.(submitted := s.submitted + s.buffered, pendingTools := map[], pendingCalls := map[], providerCallIDs := map[],
       buffered := map[], emitted := emitted)
  }

  /** Every pending call has its result. */
  predicate Answered(s: Calls) {
    s.buffered.Keys == s.pendingTools.Keys == s.providerCallIDs.Keys
  }

  function Previous(at: Checkpoint): string {
    if at.responseID != "" then at.responseID else at.previousResponse
  }

  /** The next provider call, with the results of all pending calls. */
  ghost function Prepare(cfg: Config, t: Turn): (Turn, Option<Request>)
    requires Answered(t.calls)
  {
    var order := Sorted(t.calls.pendingTools.Keys);
    if t.continuationInFlight || !Room(cfg, t.log, |order|) then (t, None)
    else
      var (l, emitted, ok) := EmitResults(cfg, t.log, t.calls, order);
      if !ok || Previous(t.at) == "" then (t.(log := l, calls := t.calls.(emitted := emitted)), None)
      else (t.(log := l, calls := Submitted(t.calls, emitted), waiting := false, continuationInFlight := true),
            Some(Request(Previous(t.at), t.at.agentSessionID, Outputs(t.calls, order))))
  }

  /** Prepare, or end the turn as failed. */
  ghost function Dispatch(cfg: Config, t: Turn): (Turn, Option<Request>)
    requires Answered(t.calls)
  {
    var (t1, request) := Prepare(cfg, t);
    if request.None? then (FinishFailed(cfg, t1, false), None) else (t1, request)
  }

  /** Tool results from the caller: all that are new are kept, or none. */
  ghost function Continue(cfg: Config, t: Turn, results: seq<ToolResult>): (Turn, Result<Option<Request>, Refusal>) {
    match Staged(t.calls, t.completed, results)
    case Err(e) => (t, Err(e))
    case Ok(staged) =>
      if cfg.maxTurnBytes > 0 && t.calls.stateBytes + TotalBytes(cfg, staged) > cfg.maxTurnBytes then (t, Err(OverLimit))
      else
        var t1 := t.(calls := Stage(cfg, t.calls, staged));
        if t.completed || staged == [] || t.calls.pendingTools == map[] || !t.waiting || !Answered(t1.calls) then (t1, Ok(None))
        else
          var (t2, request) := Dispatch(cfg, t1);
          (t2, Ok(request))
  }

  // ---------------------------------------------------------------------------
  // The end of a provider call
  // ---------------------------------------------------------------------------

  datatype Failure = TimedOut | Interrupted | Broken(retryable: bool)

  datatype Status = CompletedStatus | FailedStatus(retryable: bool) | IncompleteStatus | CancelledStatus | InvalidStatus

  function Released(t: Turn): Turn {
    t.(providerInFlight := if t.providerInFlight > 0 then t.providerInFlight - 1 else 0, continuationInFlight := false)
  }

  function ProviderFailed(cfg: Config, t: Turn, failure: Failure, checkpointInvalid: bool): Turn {
    var t0 := Released(t);
    if t0.completed then t0
    else
      var t1 := if checkpointInvalid then t0.(at := t0.at.(agentSessionID := "", previousResponse := "")) else t0;
      match failure
      case TimedOut => FinishFailed(cfg, t1, true)
      case Interrupted => FinishCancelled(cfg, t1)
      case Broken(retryable) => FinishFailed(cfg, t1, retryable)
  }

  /** What a complete response says about the turn. */
  function Received(at: Checkpoint, responseID: string, session: string): Checkpoint {
    at.(responseID := if responseID != "" then responseID else at.responseID,
        agentSessionID := if session != "" then session else at.agentSessionID)
  }

  ghost function ByStatus(cfg: Config, t: Turn, status: Status): (Turn, Option<Request>) {
    match status
    case CompletedStatus =>
      if t.calls.pendingTools == map[] then (FinishCompleted(cfg, t), None)
      else
        var t1 := t.(waiting := true);
        if Answered(t1.calls) then Dispatch(cfg, t1) else (t1, None)
    case FailedStatus(retryable) => (FinishFailed(cfg, t, retryable), None)
    case IncompleteStatus => (FinishFailed(cfg, t, false), None)
    case CancelledStatus => (FinishCancelled(cfg, t), None)
    case InvalidStatus => (FinishFailed(cfg, t, false), None)
  }

  /** The end of a provider call that is in time: its output is sent, then its status decides. */
  ghost function Conclude(cfg: Config, t: Turn, status: Status): (Turn, Option<Request>) {
    var (l1, started) := EnsureStarted(cfg, t.log);
    if !started then (FinishFailed(cfg, t.(log := l1), false), None)
    else
      var (l2, flushed) := Flush(cfg, l1);
      if !flushed then (FinishFailed(cfg, t.(log := l2.(pendingOutput := "")), false), None)
      else ByStatus(cfg, t.(log := l2), status)
  }

  ghost function ProviderDone(cfg: Config, t: Turn, responseID: string, session: string, status: Status, late: bool): (Turn, Option<Request>) {
    var t0 := Released(t);
    if t0.completed then (t0, None)
    else if late then (FinishFailed(cfg, t0.(uncertain := false), true), None)
    else Conclude(cfg, t0.(uncertain := false, at := Received(t0.at, responseID, session)), status)
  }

  // ---------------------------------------------------------------------------
  // The turn with its provider calls
  // ---------------------------------------------------------------------------

  // A provider call that was started, or is about to be. `said` is the text its callbacks took in.
  datatype Runner =
    | Scheduled(request: Request)
    | Running(request: Request, responseID: string, session: string, said: string, broken: bool)

  // `sent`: all results sent to the provider; `rounds`: the texts of the calls that ended well.
  datatype System = System(turn: Turn, runners: seq<Runner>, sent: seq<FunctionOutput>, rounds: seq<string>, deleted: bool)

  datatype Event =
    | InitDone(newSession: string)
    | InitFailed
    | RunnerStarts(n: nat)
    | Created(n: nat, responseID: string, session: string)
    | TextDelta(n: nat, delta: string)
    | FunctionCall(n: nat, provider: string, call: Call)
    | RunnerFails(n: nat, failure: Failure, checkpointInvalid: bool)
    | RunnerEnds(n: nat, text: string, status: Status, responseID: string, session: string, late: bool)
    | TimerFires
    | DeadlineFires
    | CancelAsked
    | ResultsArrive(results: seq<ToolResult>)

  function Without<T>(s: seq<T>, n: nat): seq<T>
    requires n < |s|
  {
    s[..n] + s[n + 1..]
  }

  function WithTurn(s: System, t: Turn): System {
    s.(turn := t)
  }

  function Schedule(s: System, t: Turn, runners: seq<Runner>, request: Option<Request>): System {
    match request
    case None => s.(turn := t, runners := runners)
    case Some(r) => s.(turn := t, runners := runners + [Scheduled(r)], sent := s.sent + r.outputs)
  }

  /** A callback's outcome: on an error the provider call can only fail. */
  function AfterCallback(s: System, n: nat, outcome: (Turn, bool), said: string): System
    requires n < |s.runners| && s.runners[n].Running?
  {
    s.(turn := outcome.0,
       runners := s.runners[n := s.runners[n].(broken := s.runners[n].broken || !outcome.1,
                                               said := if outcome.1 then s.runners[n].said + said else s.runners[n].said)])
  }

  /** One identity and one session for each provider call. */
  function Identified(r: Runner, responseID: string, session: string): Option<Runner>
    requires r.Running?
  {
    if (responseID != "" && r.responseID != "" && r.responseID != responseID)
       || (session != "" && r.session != "" && r.session != session) then None
    else Some(r.(responseID := if responseID != "" then responseID else r.responseID,
                 session := if session != "" then session else r.session))
  }

  /** What a completed response has to identify. */
  predicate Advances(r: Runner)
    requires r.Running?
  {
    r.responseID != "" && r.session != "" && !(r.request.previous != "" && r.responseID == r.request.previous)
  }

  ghost function Apply(cfg: Config, s: System, e: Event): System {
    var t := s.turn;
    if s.deleted then s
    else match e
         case InitDone(session) =>
           if !t.initializing then s
           else if t.completed then WithTurn(s, t.(initializing := false))
           else
             var t1 := t.(initializing := false, at := if session != "" then t.at.(agentSessionID := session) else t.at);
             s.(turn := t1, runners := s.runners + [Scheduled(Request(t1.at.previousResponse, t1.at.agentSessionID, []))])
         case InitFailed =>
           if !t.initializing then s
           else if t.completed then WithTurn(s, t.(initializing := false))
           else s.(deleted := true)
         case RunnerStarts(n) =>
           if n >= |s.runners| || !s.runners[n].Scheduled? then s
           else if t.completed then s.(runners := Without(s.runners, n))
           else
             var r := s.runners[n].request;
             s.(turn := t.(providerInFlight := t.providerInFlight + 1, uncertain := true),
                runners := s.runners[n := Running(r, "", r.session, "", false)])
         case Created(n, responseID, session) =>
           if n >= |s.runners| || !s.runners[n].Running? || s.runners[n].broken then s
           else
             var r := Identified(s.runners[n], responseID, session);
             if r.None? then AfterCallback(s, n, (t, false), "")
             else AfterCallback(s.(runners := s.runners[n := r.value]), n, OnCreated(cfg, t, session), "")
         case TextDelta(n, delta) =>
           if n >= |s.runners| || !s.runners[n].Running? || s.runners[n].broken then s
           else AfterCallback(s, n, OnText(cfg, t, delta), delta)
         case FunctionCall(n, provider, call) =>
           if n >= |s.runners| || !s.runners[n].Running? || s.runners[n].broken then s
           else AfterCallback(s, n, OnCall(cfg, t, provider, call), "")
         case RunnerFails(n, failure, invalid) =>
           if n >= |s.runners| || !s.runners[n].Running? then s
           else s.(turn := ProviderFailed(cfg, t, failure, invalid), runners := Without(s.runners, n))
         case RunnerEnds(n, text, status, responseID, session, late) =>
           if n >= |s.runners| || !s.runners[n].Running? || s.runners[n].broken || text != s.runners[n].said then s
           else
             var r := Identified(s.runners[n], responseID, session);
             if r.None? || (status.CompletedStatus? && !Advances(r.value)) then s
             else
               var (t1, request) := ProviderDone(cfg, t, r.value.responseID, r.value.session, status, late);
               Schedule(if t.completed then s else s.(rounds := s.rounds + [text]), t1, Without(s.runners, n), request)
         case TimerFires => WithTurn(s, FlushTimer(cfg, t))
         case DeadlineFires => if t.initializing then s else WithTurn(s, DeadlinePassed(cfg, t))
         case CancelAsked => WithTurn(s, Cancelled(cfg, t))
         case ResultsArrive(results) =>
           if !DistinctResults(results) then s
           else
             var (t1, outcome) := Continue(cfg, t, results);
             Schedule(s, t1, s.runners, if outcome.Ok? then outcome.value else None)
  }

  function Initial(agentSessionID: string, previousResponse: string): System {
    System(NewTurn(agentSessionID, previousResponse), [], [], [], false)
  }

  ghost function Run(cfg: Config, s: System, events: seq<Event>): System {
    if events == [] then s else Apply(cfg, Run(cfg, s, events[..|events| - 1]), events[|events| - 1])
  }
}
