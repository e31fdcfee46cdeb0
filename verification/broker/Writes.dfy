/** The ledger each event would write, and when it is written. */
module BrokerWrites {
  import opened Wrappers
  import opened Text
  import opened BrokerLedger
  import opened BrokerChanges
  import opened BrokerSystem
  import opened BrokerInvariant
  import opened BrokerMoves
  import opened BrokerEvents

  /** The change of its owner's record that a step of a request asks for. */
  function ProcNext(s: System, o: Owner, e: ProcEvent): Option<Result<Session, Error>>
    requires CanStep(s, o)
  {
    var p := s.procs[o];
    var m := s.b.mem.sessions[o];
    match e
    case CommitCreateIntent(late, _) =>
      if p.pc.Prepared? then
        Some(CreateIntentChange(m, p.prompt, p.pc.remote, RequestCancelled(s.b, o) || late, s.now))
      else None
    case CommitCreateResult(_) => if p.pc.CreateAnswered? then Some(Ok(CreateResultChange(m, p.pc.created))) else None
    case CommitInferIntent(_) =>
      if p.pc.SessionReady? then Some(InferIntentChange(m, p.prompt, p.seqNo, RequestCancelled(s.b, o), s.now)) else None
    case CommitRefusal(_) => if p.pc.InferRefused? then Some(Ok(RefusalChange(m, p.prompt, p.seqNo))) else None
    case Identity(id, _, alias, _) =>
      if (p.pc.InferSent? || p.pc.Streaming?) && id != "" && IdentifierValid(id) && AliasValid(alias, RESPONSE_PREFIX)
         && m.prompts[p.prompt].invocations[p.seqNo].responseID == "" && alias !in m.responses
      then Some(IdentityChange(m, p.prompt, p.seqNo, id, alias)) else None
    case Complete(r, aliases, _) =>
      if p.pc.Streaming? && |aliases| == |r.calls| && FreshAliases(aliases) then
        Some(CompleteChange(m, p.prompt, p.seqNo, r, aliases, s.now))
      else None
    case Finish(_) => if p.pc.Ended? then Some(Ok(FinishChange(m, p.prompt, p.seqNo, p.pc.outcome))) else None
    case _ => None
  }

  predicate Commits(e: ProcEvent) {
    || e.CommitCreateIntent? || e.CommitCreateResult? || e.CommitInferIntent? || e.CommitRefusal?
    || e.Identity? || e.Complete? || e.Finish?
  }

  function WorkerNext(s: System, o: Owner, e: WorkerEvent): Option<Result<Session, Error>>
    requires o in s.workers && o in s.b.mem.sessions
  {
    var k := s.workers[o];
    if e.CommitCleanup? && k.stage.Evidence? && o !in s.b.active then
      Some(CleanupChange(s.b.mem.sessions[o], k.closing, k.retiring, k.createState.Known?, k.stage.kind, k.remote, s.now))
    else None
  }

  ghost predicate WritesSession(l: Ledger, o: Owner, next: Option<Result<Session, Error>>, m: Ledger) {
    next.Some? && next.value.Ok? && m == PutSession(l, o, next.value.value)
  }

  /** `l` is the ledger that event `e` asks to be written. */
  ghost predicate Writes(s: System, e: Event, l: Ledger) {
    match e
    case Tick(_) | Crash | Shutdown | Capturing(_) => false
    case Restart(_) => !s.up && l == Recovered(s.b.mem)
    case Sweeping(_) => s.up && l == Swept(s.b.mem, s.now)
    case Controlled(path, c, at, _) =>
      s.up && !path.Responses? && 0 < at <= s.now && ParsedContext(path, c, at) && ControlNext(s.b.mem, path, c, s.now) == Ok(l)
    case Disconnected(o, k, _) => s.up && l == Disconnect(s.b.mem, o, k)
    case Reserving(c, r, normal, at, _) =>
      && s.up && 0 < at <= s.now && ParsedContext(Responses, c, at)
      && ReserveNext(s.b.mem, c, r, normal, s.now).Ok? && l == ReserveNext(s.b.mem, c, r, normal, s.now).value.0
    case Pinning(digest, _) => s.up && DigestValid(digest) && l == s.b.mem.(principal := digest)
    case ProcMoves(o, step) => CanStep(s, o) && WritesSession(s.b.mem, o, ProcNext(s, o, step), l)
    case WorkerMoves(o, move) =>
      s.up && o in s.workers && o in s.b.mem.sessions && WritesSession(s.b.mem, o, WorkerNext(s, o, move), l)
  }

  /** Ordinary changes have to leave every owner's reserve intact. */
  predicate Ordinary(s: System, e: Event) {
    match e
    case Controlled(path, c, _, _) => ControlOrdinary(s.b.mem, path, c)
    case Reserving(_, _, _, _, _) => true
    case ProcMoves(_, step) => step.Complete?
    case _ => false
  }

  /** A ledger that reached the disk was asked for by a sound process, and fits. */
  ghost predicate Written(size: Ledger -> nat, s: System, e: Event, l: Ledger) {
    && s.b.disk == s.b.mem && (s.up ==> !s.b.poisoned)
    && Writes(s, e, l) && size(l) <= Limit(Ordinary(s, e), s.b.disk, l)
  }

  lemma CommitWritten(size: Ledger -> nat, b: Broker, ordinary: bool, next: Result<Ledger, Error>, io: Io)
    requires !b.poisoned ==> b.mem == b.disk
    ensures var b1 := Commit(size, b, ordinary, next, io).0;
            b1.disk == b.disk
            || (!b.poisoned && b.mem == b.disk && next == Ok(b1.disk) && size(b1.disk) <= Limit(ordinary, b.disk, b1.disk))
  {
  }

  /** A step of a request leaves the disk alone, or commits the change it asks for. */
  lemma ProcCommits(size: Ledger -> nat, s: System, o: Owner, e: ProcEvent, io: Io)
    requires CanStep(s, o) && Commits(e) && io == e.io
    ensures var t := ProcStep(size, s, o, e);
            t.b.disk == s.b.disk
            || (ProcNext(s, o, e).Some? && t.b.disk == CommitSession(size, s.b, e.Complete?, o, ProcNext(s, o, e).value, io).0.disk)
  {
    hide FreshAliases, Commits, CommitSession, Commit, IdentifierValid;
  }

  lemma ProcSilent(size: Ledger -> nat, s: System, o: Owner, e: ProcEvent)
    requires CanStep(s, o) && !Commits(e)
    ensures ProcStep(size, s, o, e).b == s.b
  {
  }

  lemma ProcWritten(size: Ledger -> nat, s: System, o: Owner, e: ProcEvent)
    requires CanStep(s, o) && (!s.b.poisoned ==> s.b.mem == s.b.disk)
    ensures var t := ProcStep(size, s, o, e); t.b.disk == s.b.disk || Written(size, s, ProcMoves(o, e), t.b.disk)
  {
    hide Commit, ProcStep, ProcNext, Limit;
    if Commits(e) {
      ProcCommits(size, s, o, e, e.io);
      if ProcNext(s, o, e).Some? {
        CommitWritten(size, s.b, e.Complete?, OnSession(s.b.mem, o, ProcNext(s, o, e).value), e.io);
      }
    } else {
      ProcSilent(size, s, o, e);
    }
  }

  lemma WorkerWritten(size: Ledger -> nat, s: System, o: Owner, e: WorkerEvent)
    requires s.up && o in s.workers && o in s.b.mem.sessions && (!s.b.poisoned ==> s.b.mem == s.b.disk)
    ensures var t := WorkerStep(size, s, o, e); t.b.disk == s.b.disk || Written(size, s, WorkerMoves(o, e), t.b.disk)
  {
    hide Commit, CleanupChange, Quieted, Limit, ReserveChange, ControlChange, DigestValid, CompleteChange, ParsedContext, IdentifierValid, OwnerValid, ForSessions, FreshAliases, PutSession;
    if e.CommitCleanup? && s.workers[o].stage.Evidence? {
      var k := s.workers[o];
      var next := if o in s.b.active then Err(Pending)
                  else CleanupChange(s.b.mem.sessions[o], k.closing, k.retiring, k.createState.Known?, k.stage.kind, k.remote, s.now);
      CommitWritten(size, s.b, false, OnSession(s.b.mem, o, next), e.io);
    }
  }

  lemma ControlWritten(size: Ledger -> nat, s: System, path: Path, c: Context, io: Io)
    requires !s.b.poisoned ==> s.b.mem == s.b.disk
    ensures var l := Control(size, s.b, path, c, s.now, io).0.disk;
            l == s.b.disk
            || (s.b.mem == s.b.disk && !s.b.poisoned && ControlNext(s.b.mem, path, c, s.now) == Ok(l)
                && size(l) <= Limit(ControlOrdinary(s.b.mem, path, c), s.b.disk, l))
  {
    ControlShape(size, s.b, path, c, s.now, io);
    CommitWritten(size, s.b, ControlOrdinary(s.b.mem, path, c), ControlNext(s.b.mem, path, c, s.now), io);
  }

  lemma ReserveWritten(size: Ledger -> nat, s: System, c: Context, r: Request, normal: bool, io: Io)
    requires !s.b.poisoned ==> s.b.mem == s.b.disk
    ensures var l := ReserveStep(size, s, c, r, normal, io).b.disk;
            l == s.b.disk
            || (s.b.mem == s.b.disk && !s.b.poisoned && ReserveNext(s.b.mem, c, r, normal, s.now).Ok?
                && l == ReserveNext(s.b.mem, c, r, normal, s.now).value.0 && size(l) <= Limit(true, s.b.disk, l))
  {
    ReserveShape(size, s, c, r, normal, io);
  }

  lemma SweepWritten(size: Ledger -> nat, b: Broker, now: int, io: Io)
    requires !b.poisoned ==> b.mem == b.disk
    ensures var l := Sweep(size, b, now, io).disk;
            l == b.disk || (!b.poisoned && b.mem == b.disk && l == Swept(b.mem, now) && size(l) <= MAX_LEDGER_BYTES)
  {
    CommitWritten(size, b, false, Ok(Swept(b.mem, now)), io);
  }

  lemma DisconnectWritten(size: Ledger -> nat, b: Broker, o: Owner, k: PromptKey, io: Io)
    requires !b.poisoned ==> b.mem == b.disk
    ensures var l := CloseOwnerPrompt(size, b, o, k, io).disk;
            l == b.disk || (!b.poisoned && b.mem == b.disk && l == Disconnect(b.mem, o, k) && size(l) <= MAX_LEDGER_BYTES)
  {
    CommitWritten(size, b, false, Ok(Disconnect(b.mem, o, k)), io);
  }

  lemma RestartWritten(size: Ledger -> nat, s: System, io: Io)
    requires s.b.mem == s.b.disk
    ensures var l := RestartStep(size, s, io).b.disk;
            l == s.b.disk || (!s.up && l == Recovered(s.b.disk) && size(l) <= MAX_LEDGER_BYTES)
  {
    hide Commit, Recovered, LedgerValid;
    CommitWritten(size, Broker(s.b.disk, s.b.disk, false, false, map[], {}), false, Ok(Recovered(s.b.disk)), io);
  }

  lemma PinWritten(size: Ledger -> nat, b: Broker, digest: string, io: Io)
    requires !b.poisoned ==> b.mem == b.disk
    ensures var l := PinPrincipal(size, b, digest, io).0.disk;
            l == b.disk
            || (!b.poisoned && b.mem == b.disk && b.mem.principal == "" && l == b.mem.(principal := digest) && size(l) <= MAX_LEDGER_BYTES)
  {
    CommitWritten(size, b, false, Ok(b.mem.(principal := digest)), io);
  }

  /** The disk changes only to the ledger its event asks for, and only within the limits. */
  lemma DiskWritten(size: Ledger -> nat, s: System, e: Event)
    requires ProcessInv(s)
    ensures Apply(size, s, e).b.disk == s.b.disk || Written(size, s, e, Apply(size, s, e).b.disk)
  {
    hide Control, ReserveStep, ProcStep, WorkerStep, Sweep, CloseOwnerPrompt, PinPrincipal, ParsedContext, ControlNext, ReserveNext, DigestValid, ControlOrdinary, LedgerValid, SessionAccepted, ProcNext, ForSessions, ClosingPrompts, Recovered, WorkerNext, RecoverPrompts, Reopen;
    match e
    case Restart(io) => if !s.up { RestartWritten(size, s, io); }
    case Sweeping(io) => if s.up { SweepWritten(size, s.b, s.now, io); }
    case Controlled(path, c, at, io) => if s.up && !path.Responses? && 0 < at <= s.now && ParsedContext(path, c, at) { ControlWritten(size, s, path, c, io); }
    case Disconnected(o, k, io) => if s.up { DisconnectWritten(size, s.b, o, k, io); }
    case Reserving(c, r, normal, at, io) => if s.up && 0 < at <= s.now && ParsedContext(Responses, c, at) { ReserveWritten(size, s, c, r, normal, io); }
    case Pinning(digest, io) => if s.up && DigestValid(digest) { PinWritten(size, s.b, digest, io); }
    case ProcMoves(o, step) => if CanStep(s, o) { ProcWritten(size, s, o, step); }
    case WorkerMoves(o, move) => if s.up && o in s.workers && o in s.b.mem.sessions { WorkerWritten(size, s, o, move); }
    case _ =>
  }
}
