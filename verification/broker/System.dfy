/**
 The whole system: the broker process with its durable store, the requests it has in
 flight, its cleanup workers, and a record of what the remote service may have received.
 Every event is one critical section, one remote exchange, or one crash.
 */
module BrokerSystem {
  import opened Wrappers
  import opened Text
  import opened BrokerLedger
  import opened BrokerChanges

  const MAX_LEDGER_BYTES: nat := 33554432
  const OWNER_RESERVE_BYTES: nat := 65536
  const PRINCIPAL_RESERVE_BYTES: nat := 128

  function LiveOwners(l: Ledger): set<Owner> {
    set o | o in l.sessions && !l.sessions[o].retired
  }

  function ReserveBytes(l: Ledger): nat {
    (if l.principal == "" then PRINCIPAL_RESERVE_BYTES else 0) + |LiveOwners(l)| * OWNER_RESERVE_BYTES
  }

  // ---------------------------------------------------------------------------
  // The broker process
  // ---------------------------------------------------------------------------

  // How an attempt to replace the ledger file ended. A failed attempt may still have
  // replaced the file.
  datatype Io = Saved | LostOld | LostNew

  datatype Broker = Broker(
    disk: Ledger,
    mem: Ledger,
    poisoned: bool,
    stopped: bool,
    active: map<Owner, PromptKey>,
    cancelled: set<Owner>)

  function Poison(b: Broker): Broker {
    b.(poisoned := true, stopped := true, cancelled := b.active.Keys)
  }

  function Limit(ordinary: bool, before: Ledger, after: Ledger): int {
    if ordinary && before != after then MAX_LEDGER_BYTES - ReserveBytes(after) else MAX_LEDGER_BYTES
  }

  /** The transaction every ledger change goes through. */
  function Commit(size: Ledger -> nat, b: Broker, ordinary: bool, next: Result<Ledger, Error>, io: Io)
    : (Broker, Result<(), Error>)
  {
    if b.poisoned then (b, Err(Storage))
    else if next.Err? then (b, Err(next.error))
    else if size(next.value) > Limit(ordinary, b.mem, next.value) then (b, Err(Capacity))
    else match io
         case Saved => (b.(mem := next.value, disk := next.value), Ok(()))
         case LostOld => (Poison(b), Err(Storage))
         case LostNew => (Poison(b).(disk := next.value), Err(Storage))
  }

  function OnSession(l: Ledger, o: Owner, next: Result<Session, Error>): Result<Ledger, Error> {
    match next
    case Err(e) => Err(e)
    case Ok(s) => Ok(PutSession(l, o, s))
  }

  function Cancel(b: Broker, o: Owner): Broker {
    if o in b.active then b.(cancelled := b.cancelled + {o}) else b
  }

  function CancelPrompt(b: Broker, o: Owner, k: PromptKey): Broker {
    if o in b.active && b.active[o] == k then b.(cancelled := b.cancelled + {o}) else b
  }

  predicate RequestCancelled(b: Broker, o: Owner) {
    b.stopped || o in b.cancelled
  }

  function ControlNext(l: Ledger, path: Path, c: Context, now: int): Result<Ledger, Error> {
    match EnsureSession(l, c.owner)
    case Err(e) => Err(e)
    case Ok(s) => OnSession(l, c.owner, ControlChange(s, path, c, now))
  }

  predicate ControlOrdinary(l: Ledger, path: Path, c: Context) {
    path.Renew? || c.owner !in l.sessions || (path.Settle? && c.prompt !in l.sessions[c.owner].prompts)
  }

  function Control(size: Ledger -> nat, b: Broker, path: Path, c: Context, now: int, io: Io)
    : (Broker, Result<(), Error>)
  {
    var (b1, r) := Commit(size, b, ControlOrdinary(b.mem, path, c), ControlNext(b.mem, path, c, now), io);
    if r.Err? then (b1, r)
    else if path.Retire? then (Cancel(b1, c.owner), r)
    else if path.Settle? then (CancelPrompt(b1, c.owner, c.prompt), r)
    else (b1, r)
  }

  function ReserveNext(l: Ledger, c: Context, r: Request, outputsNormal: bool, now: int): Result<(Ledger, Request), Error> {
    match EnsureSession(l, c.owner)
    case Err(e) => Err(e)
    case Ok(s) =>
      match ReserveChange(s, c, r, outputsNormal, now)
      case Err(e) => Err(e)
      case Ok((s1, sent)) => Ok((PutSession(l, c.owner, s1), sent))
  }

  function Reserve(size: Ledger -> nat, b: Broker, c: Context, r: Request, outputsNormal: bool, now: int, io: Io)
    : (Broker, Result<Request, Error>)
  {
    if b.poisoned then (b, Err(Storage))
    else if b.stopped then (b, Err(Closed))
    else if c.owner in b.active then (b, Err(Conflict))
    else match ReserveNext(b.mem, c, r, outputsNormal, now)
         case Err(e) => (b, Err(e))
         case Ok((l, sent)) =>
           var (b1, committed) := Commit(size, b, true, Ok(l), io);
           if committed.Err? then (b1, Err(committed.error))
           else (b1.(active := b1.active[c.owner := c.prompt], cancelled := b1.cancelled - {c.owner}), Ok(sent))
  }

  function PinPrincipal(size: Ledger -> nat, b: Broker, digest: string, io: Io): (Broker, Result<(), Error>) {
    if b.mem.principal == digest then (b, if b.poisoned then Err(Storage) else Ok(()))
    else if b.mem.principal != "" then (b, Err(Conflict))
    else Commit(size, b, false, Ok(b.mem.(principal := digest)), io)
  }

  /** A reserved commit on one owner's record. */
  function CommitSession(size: Ledger -> nat, b: Broker, ordinary: bool, o: Owner, next: Result<Session, Error>, io: Io)
    : (Broker, Result<(), Error>)
  {
    Commit(size, b, ordinary, OnSession(b.mem, o, next), io)
  }

  function Disconnect(l: Ledger, o: Owner, k: PromptKey): Ledger {
    if o in l.sessions then PutSession(l, o, ClosePrompt(l.sessions[o], k)) else l
  }

  function CloseOwnerPrompt(size: Ledger -> nat, b: Broker, o: Owner, k: PromptKey, io: Io): Broker {
    if b.stopped then b
    else
      CancelPrompt(Commit(size, b, false, Ok(Disconnect(b.mem, o, k)), io).0, o, k)
  }

  predicate Expired(l: Ledger, now: int) {
    exists o :: o in l.sessions && exists k :: k in l.sessions[o].prompts
                                               && !l.sessions[o].prompts[k].closing && l.sessions[o].prompts[k].leaseExpires <= now
  }

  function Swept(l: Ledger, now: int): Ledger {
    ForSessions(l, s => ExpirePrompts(s, now))
  }

  function SweepExpired(size: Ledger -> nat, b: Broker, now: int, io: Io): Broker {
    if Expired(b.mem, now) then Commit(size, b, false, Ok(Swept(b.mem, now)), io).0 else b
  }

  predicate ActiveClosing(b: Broker, o: Owner) {
    && o in b.active && o in b.mem.sessions && b.active[o] in ClosingPrompts(b.mem.sessions[o])
  }

  /** One pass of the sweeper: close expired prompts, cancel the requests of closed ones. */
  function Sweep(size: Ledger -> nat, b: Broker, now: int, io: Io): Broker {
    if b.stopped then b
    else
      var b1 := SweepExpired(size, b, now, io);
      b1.(cancelled := b1.cancelled + set o | o in b1.active && ActiveClosing(b1, o))
  }

  function FinishInvocation(size: Ledger -> nat, b: Broker, o: Owner, k: PromptKey, q: nat, outcome: Outcome, io: Io)
    : (Broker, Result<(), Error>)
    requires o in b.mem.sessions && HasInvocation(b.mem.sessions[o], k, q)
  {
    var (b1, r) := CommitSession(size, b, false, o, Ok(FinishChange(b.mem.sessions[o], k, q, outcome)), io);
    (b1.(active := b1.active - {o}, cancelled := b1.cancelled - {o}), r)
  }

  function Recovered(l: Ledger): Ledger {
    ForSessions(l, s => RecoverPrompts(s))
  }

  /** A broker that has just read its file and committed the closing of old prompts. */
  function Reopen(size: Ledger -> nat, disk: Ledger, io: Io): (Broker, Result<(), Error>) {
    Commit(size, Broker(disk, disk, false, false, map[], {}), false, Ok(Recovered(disk)), io)
  }

  // ---------------------------------------------------------------------------
  // Requests in flight, cleanup workers, and what the remote may have received
  // ---------------------------------------------------------------------------

  // Where an admitted request is. `remote` is the session it creates or uses.
  datatype Pc =
    | Started
    | Prepared(remote: string)
    | CreateReady(remote: string)
    | CreateSent(remote: string)
    | CreateAnswered(remote: string, created: bool)
    | SessionReady(remote: string)
    | InferReady(remote: string)
    | InferSent(remote: string)
    | InferRefused(remote: string)
    | Streaming(remote: string, responseID: string)
    | Ended(outcome: Outcome)

  datatype Proc = Proc(prompt: PromptKey, seqNo: nat, operationID: string, pc: Pc)

  datatype WorkerStage = Captured | Deleting | Evidence(kind: Kind)

  datatype Worker = Worker(
    closing: set<PromptKey>,
    ambiguous: bool,
    quiet: bool,
    remote: string,
    createState: CreateState,
    retiring: bool,
    stage: WorkerStage)

  datatype CreateRec = CreateRec(attempts: nat, rejected: bool, acked: bool)

  datatype InferKey = InferKey(prompt: PromptKey, seqNo: nat)

  // `quiet`: after the prompt closed, and with no request active, the session was seen idle or gone.
  datatype InferRec = InferRec(operationID: string, attempts: nat, rejected: bool, acked: bool, quiet: bool)

  // One owner's part of the remote world, and the responses its reservations have continued.
  datatype World = World(
    creates: map<string, CreateRec>,
    infers: map<InferKey, InferRec>,
    gone: set<string>,
    continued: map<string, nat>,
    unfinished: set<PromptKey>)

  const NOTHING := World(map[], map[], {}, map[], {})

  datatype System = System(
    b: Broker,
    up: bool,
    procs: map<Owner, Proc>,
    workers: map<Owner, Worker>,
    worlds: map<Owner, World>,
    now: int)

  function WorldOf(s: System, o: Owner): World {
    if o in s.worlds then s.worlds[o] else NOTHING
  }

  // ---------------------------------------------------------------------------
  // Events
  // ---------------------------------------------------------------------------

  datatype ProcEvent =
    | SeeKnown
    | SeeUnsettledCreate
    | PrepareCreate(newRemote: string)
    | Abandon
    | CommitCreateIntent(deadlinePassed: bool, io: Io)
    | SendCreate
    | SkipCreate
    | CreateAcknowledged
    | CreateRefused
    | CreateUnknown
    | CommitCreateResult(io: Io)
    | CommitInferIntent(io: Io)
    | SendInfer
    | SkipInfer
    | InferRefusal
    | CommitRefusal(io: Io)
    | InferUnknown
    | Identity(responseID: string, sessionMatches: bool, newAlias: string, io: Io)
    | Complete(summary: Summary, newAliases: seq<string>, io: Io)
    | Finish(io: Io)

  datatype WorkerEvent =
    | DeleteSent
    | DeleteConfirmed
    | StopConfirmed
    | NothingToStop
    | AbandonCleanup
    | CommitCleanup(io: Io)

  datatype Event =
    | Tick(to: int)
    | Crash
    | Restart(io: Io)
    | Shutdown
    | Sweeping(io: Io)
    | Controlled(path: Path, context: Context, parsedAt: int, io: Io)
    | Disconnected(owner: Owner, prompt: PromptKey, io: Io)
    | Reserving(context: Context, request: Request, outputsNormal: bool, parsedAt: int, io: Io)
    | Pinning(digest: string, io: Io)
    | ProcMoves(owner: Owner, step: ProcEvent)
    | Capturing(owner: Owner)
    | WorkerMoves(owner: Owner, move: WorkerEvent)

  // ---------------------------------------------------------------------------
  // Steps of one admitted request
  // ---------------------------------------------------------------------------

  function SetPc(s: System, o: Owner, pc: Pc): System
    requires o in s.procs
  {
    s.(procs := s.procs[o := s.procs[o].(pc := pc)])
  }

  function SetWorld(s: System, o: Owner, w: World): System {
    s.(worlds := s.worlds[o := w])
  }

  /** A commit by the request of `o`, and where the request is after it. */
  function ProcCommit(size: Ledger -> nat, s: System, ordinary: bool, o: Owner, next: Result<Session, Error>, io: Io,
                      done: Pc, failed: Pc): System
    requires o in s.procs
  {
    var (b1, r) := CommitSession(size, s.b, ordinary, o, next, io);
    SetPc(s.(b := b1), o, if r.Ok? then done else failed)
  }

  function KeyOf(p: Proc): InferKey {
    InferKey(p.prompt, p.seqNo)
  }

  function SentCreate(w: World, remote: string): World {
    var prior := if remote in w.creates then w.creates[remote] else CreateRec(0, false, false);
    w.(creates := w.creates[remote := prior.(attempts := prior.attempts + 1)])
  }

  function SentInfer(w: World, p: Proc): World {
    var prior := if KeyOf(p) in w.infers then w.infers[KeyOf(p)] else InferRec(p.operationID, 0, false, false, false);
    w.(infers := w.infers[KeyOf(p) := prior.(attempts := prior.attempts + 1)])
  }

  function RefusedCreate(w: World, remote: string): World {
    if remote in w.creates then w.(creates := w.creates[remote := w.creates[remote].(rejected := true)]) else w
  }

  function AckedCreate(w: World, remote: string): World {
    if remote in w.creates then w.(creates := w.creates[remote := w.creates[remote].(acked := true)]) else w
  }

  function RefusedInfer(w: World, key: InferKey): World {
    if key in w.infers then w.(infers := w.infers[key := w.infers[key].(rejected := true)]) else w
  }

  function AckedInfer(w: World, key: InferKey): World {
    if key in w.infers then w.(infers := w.infers[key := w.infers[key].(acked := true)]) else w
  }

  predicate FreshRemote(s: System, o: Owner, remote: string) {
    && UuidValid(remote)
    && remote !in WorldOf(s, o).creates
    && (o in s.procs && s.procs[o].pc.Prepared? ==> s.procs[o].pc.remote != remote)
  }

  predicate FreshAliases(aliases: seq<string>) {
    && (forall i :: 0 <= i < |aliases| ==> AliasValid(aliases[i], CALL_PREFIX))
    && (forall i, j :: 0 <= i < j < |aliases| ==> aliases[i] != aliases[j])
  }

  function ProcStep(size: Ledger -> nat, s: System, o: Owner, e: ProcEvent): System
    requires o in s.procs && o in s.b.mem.sessions
    requires HasInvocation(s.b.mem.sessions[o], s.procs[o].prompt, s.procs[o].seqNo)
  {
    var p := s.procs[o];
    var m := s.b.mem.sessions[o];
    var w := WorldOf(s, o);
    match e
    case SeeKnown =>
      if p.pc.Started? && m.createState.Known? then SetPc(s, o, SessionReady(m.remoteID)) else s
    case SeeUnsettledCreate =>
      if p.pc.Started? && (m.createState.CreateIntent? || m.createState.Deleted?) then SetPc(s, o, Ended(Failed)) else s
    case PrepareCreate(remote) =>
      if p.pc.Started? && m.createState.NotCreated? && s.b.mem.principal != "" && FreshRemote(s, o, remote)
      then SetPc(s, o, Prepared(remote)) else s
    case Abandon =>
      if p.pc.Started? || p.pc.Prepared? || p.pc.SessionReady? then SetPc(s, o, Ended(Failed)) else s
    case CommitCreateIntent(deadlinePassed, io) =>
      if p.pc.Prepared? then
        ProcCommit(size, s, false, o,
                   CreateIntentChange(m, p.prompt, p.pc.remote, RequestCancelled(s.b, o) || deadlinePassed, s.now),
                   io, CreateReady(p.pc.remote), Ended(Failed))
      else s
    case SendCreate =>
      if p.pc.CreateReady? then SetPc(SetWorld(s, o, SentCreate(w, p.pc.remote)), o, CreateSent(p.pc.remote)) else s
    case SkipCreate =>
      if p.pc.CreateReady? then SetPc(s, o, CreateAnswered(p.pc.remote, false)) else s
    case CreateAcknowledged =>
      if p.pc.CreateSent? then SetPc(SetWorld(s, o, AckedCreate(w, p.pc.remote)), o, CreateAnswered(p.pc.remote, true)) else s
    case CreateRefused =>
      if p.pc.CreateSent? then SetPc(SetWorld(s, o, RefusedCreate(w, p.pc.remote)), o, CreateAnswered(p.pc.remote, false)) else s
    case CreateUnknown =>
      if p.pc.CreateSent? then SetPc(s, o, Ended(AcceptanceUnknown)) else s
    case CommitCreateResult(io) =>
      if p.pc.CreateAnswered? then
        ProcCommit(size, s, false, o, Ok(CreateResultChange(m, p.pc.created)), io,
                   if p.pc.created then SessionReady(p.pc.remote) else Ended(Failed), Ended(Failed))
      else s
    case CommitInferIntent(io) =>
      if p.pc.SessionReady? then
        ProcCommit(size, s, false, o, InferIntentChange(m, p.prompt, p.seqNo, RequestCancelled(s.b, o), s.now),
                   io, InferReady(p.pc.remote), Ended(Failed))
      else s
    case SendInfer =>
      if p.pc.InferReady? then SetPc(SetWorld(s, o, SentInfer(w, p)), o, InferSent(p.pc.remote)) else s
    case SkipInfer =>
      if p.pc.InferReady? && RequestCancelled(s.b, o) then SetPc(s, o, Ended(Failed)) else s
    case InferRefusal =>
      if p.pc.InferSent? then SetPc(SetWorld(s, o, RefusedInfer(w, KeyOf(p))), o, InferRefused(p.pc.remote)) else s
    case CommitRefusal(io) =>
      if p.pc.InferRefused? then
        ProcCommit(size, s, false, o, Ok(RefusalChange(m, p.prompt, p.seqNo)), io, Ended(Failed), Ended(Failed))
      else s
    case InferUnknown =>
      if p.pc.InferSent? || p.pc.Streaming? then SetPc(s, o, Ended(AcceptanceUnknown)) else s
    case Identity(id, sessionMatches, alias, io) =>
      if !(p.pc.InferSent? || p.pc.Streaming?) then s
      else if id == "" || !IdentifierValid(id) || !sessionMatches || s.b.poisoned then SetPc(s, o, Ended(AcceptanceUnknown))
      else
        var previous := m.prompts[p.prompt].invocations[p.seqNo].responseID;
        if previous != "" then
          if previous != id then SetPc(s, o, Ended(AcceptanceUnknown)) else s
        else if !AliasValid(alias, RESPONSE_PREFIX) || alias in m.responses then s
        else
          ProcCommit(size, SetWorld(s, o, AckedInfer(w, KeyOf(p))), false, o,
                     IdentityChange(m, p.prompt, p.seqNo, id, alias), io,
                     Streaming(p.pc.remote, id), Ended(AcceptanceUnknown))
    case Complete(summary, aliases, io) =>
      if p.pc.Streaming? && |aliases| == |summary.calls| && FreshAliases(aliases) then
        ProcCommit(size, s, true, o, CompleteChange(m, p.prompt, p.seqNo, summary, aliases, s.now), io,
                   Ended(Success), Ended(Failed))
      else s
    case Finish(io) =>
      if p.pc.Ended? then
        var (b1, r) := FinishInvocation(size, s.b, o, p.prompt, p.seqNo, p.pc.outcome, io);
        var w1 := if r == Err(Capacity) && !p.pc.outcome.Success?
                  then w.(unfinished := w.unfinished + {p.prompt}) else w;
        SetWorld(s.(b := b1, procs := s.procs - {o}), o, w1)
      else s
  }

  // ---------------------------------------------------------------------------
  // Steps of a cleanup worker
  // ---------------------------------------------------------------------------

  function Capture(m: Session): Worker {
    Worker(ClosingPrompts(m), SessionAmbiguous(m), ClosingQuiet(m), m.remoteID, m.createState, m.retiring, Captured)
  }

  function DropWorker(s: System, o: Owner): System {
    s.(workers := s.workers - {o})
  }

  function SetStage(s: System, o: Owner, stage: WorkerStage): System
    requires o in s.workers
  {
    s.(workers := s.workers[o := s.workers[o].(stage := stage)])
  }

  function CaptureStep(s: System, o: Owner): System {
    if s.b.stopped || s.b.poisoned || o in s.workers || o !in s.b.mem.sessions then s
    else
      var m := s.b.mem.sessions[o];
      if m.retired || o in s.b.active then s
      else if (ClosingPrompts(m) == {} && !m.retiring) || m.createState.CreateIntent? then s
      else s.(workers := s.workers[o := Capture(m)])
  }

  predicate MayDelete(k: Worker) {
    k.createState.Known? && k.retiring && !k.ambiguous
  }

  predicate RestsQuiet(k: Worker) {
    k.createState.Known? && !MayDelete(k) && k.quiet && !k.ambiguous && k.closing != {}
  }

  predicate MustStop(k: Worker) {
    k.createState.Known? && !MayDelete(k) && !RestsQuiet(k)
  }

  /** The session was seen idle or gone: its closed prompts without an active request are quiet. */
  function Quieted(w: World, m: Session, active: bool): World {
    w.(infers := map key | key in w.infers ::
         if !active && key.prompt in m.prompts && m.prompts[key.prompt].closing
         then w.infers[key].(quiet := true) else w.infers[key])
  }

  function WorkerStep(size: Ledger -> nat, s: System, o: Owner, e: WorkerEvent): System
    requires o in s.workers && o in s.b.mem.sessions
  {
    var k := s.workers[o];
    var m := s.b.mem.sessions[o];
    var w := WorldOf(s, o);
    match e
    case DeleteSent =>
      if k.stage.Captured? && MayDelete(k) then SetStage(s, o, Deleting) else s
    case DeleteConfirmed =>
      if k.stage.Deleting? then
        SetStage(SetWorld(s, o, Quieted(w, m, o in s.b.active).(gone := w.gone + {k.remote})), o, Evidence(DeletedGone))
      else s
    case StopConfirmed =>
      if k.stage.Captured? && MustStop(k) then
        var s1 := SetWorld(s, o, Quieted(w, m, o in s.b.active));
        if k.ambiguous then DropWorker(s1, o) else SetStage(s1, o, Evidence(StopIdle))
      else s
    case NothingToStop =>
      if k.stage.Captured? && !MayDelete(k) && !MustStop(k) then
        if k.ambiguous then DropWorker(s, o)
        else SetStage(s, o, Evidence(if RestsQuiet(k) then Quiescent else NeverCreated))
      else s
    case AbandonCleanup => DropWorker(s, o)
    case CommitCleanup(io) =>
      if k.stage.Evidence? then
        var next := if o in s.b.active then Err(Pending)
                    else CleanupChange(m, k.closing, k.retiring, k.createState.Known?, k.stage.kind, k.remote, s.now);
        DropWorker(s.(b := CommitSession(size, s.b, false, o, next, io).0), o)
      else s
  }

  // ---------------------------------------------------------------------------
  // The step function
  // ---------------------------------------------------------------------------

  function Bumped(counts: map<string, nat>, a: string): map<string, nat> {
    counts[a := if a in counts then counts[a] + 1 else 1]
  }

  /** A reservation that may be durable and continues a response is counted against it. */
  function ReserveStep(size: Ledger -> nat, s: System, c: Context, r: Request, outputsNormal: bool, io: Io): System {
    var (b1, result) := Reserve(size, s.b, c, r, outputsNormal, s.now, io);
    var next := ReserveNext(s.b.mem, c, r, outputsNormal, s.now);
    var counted := next.Ok? && b1.disk == next.value.0 && b1.disk != s.b.disk && r.input.Items?;
    var s1 := if counted then SetWorld(s, c.owner, WorldOf(s, c.owner).(continued := Bumped(WorldOf(s, c.owner).continued, r.previous)))
              else s;
    if result.Ok? then
      s1.(b := b1, procs := s1.procs[c.owner := Proc(c.prompt, c.sequence, c.operationID, Started)])
    else s1.(b := b1)
  }

  function CrashStep(s: System): System {
    s.(up := false, procs := map[], workers := map[],
       b := Broker(s.b.disk, s.b.disk, true, true, map[], {}))
  }

  ghost function RestartStep(size: Ledger -> nat, s: System, io: Io): System {
    if s.up || !LedgerValid(s.b.disk, s.b.disk.configDigest) then s
    else
      var (b1, r) := Reopen(size, s.b.disk, io);
      if r.Ok? then s.(up := true, b := b1)
      else s.(b := Broker(b1.disk, b1.disk, true, true, map[], {}))
  }

  ghost function Apply(size: Ledger -> nat, s: System, e: Event): System {
    match e
    case Tick(to) => if to >= s.now then s.(now := to) else s
    case Crash => CrashStep(s)
    case Restart(io) => RestartStep(size, s, io)
    case Shutdown => if s.up then s.(b := s.b.(stopped := true, cancelled := s.b.active.Keys)) else s
    case Sweeping(io) => if s.up then s.(b := Sweep(size, s.b, s.now, io)) else s
    case Controlled(path, c, at, io) =>
      if s.up && !path.Responses? && 0 < at <= s.now && ParsedContext(path, c, at)
      then s.(b := Control(size, s.b, path, c, s.now, io).0) else s
    case Disconnected(o, k, io) => if s.up then s.(b := CloseOwnerPrompt(size, s.b, o, k, io)) else s
    case Reserving(c, r, normal, at, io) =>
      if s.up && 0 < at <= s.now && ParsedContext(Responses, c, at) then ReserveStep(size, s, c, r, normal, io) else s
    case Pinning(digest, io) =>
      if s.up && DigestValid(digest) then s.(b := PinPrincipal(size, s.b, digest, io).0) else s
    case ProcMoves(o, step) =>
      if s.up && o in s.procs && o in s.b.mem.sessions
         && HasInvocation(s.b.mem.sessions[o], s.procs[o].prompt, s.procs[o].seqNo)
      then ProcStep(size, s, o, step) else s
    case Capturing(o) => if s.up then CaptureStep(s, o) else s
    case WorkerMoves(o, move) =>
      if s.up && o in s.workers && o in s.b.mem.sessions then WorkerStep(size, s, o, move) else s
  }

  ghost function Run(size: Ledger -> nat, s: System, events: seq<Event>): System {
    if events == [] then s else Apply(size, Run(size, s, events[..|events| - 1]), events[|events| - 1])
  }

  function EmptyLedger(configDigest: string): Ledger {
    Ledger(configDigest, "", map[])
  }

  /** A broker that has just created its store. */
  function Initial(configDigest: string, now: int): System {
    var l := EmptyLedger(configDigest);
    System(Broker(l, l, false, false, map[], {}), true, map[], map[], map[], now)
  }
}
