/** Every step of a request in flight keeps the invariant. */
module BrokerMoves {
  import opened Wrappers
  import opened Text
  import opened BrokerLedger
  import opened BrokerChanges
  import opened BrokerAcceptance
  import opened BrokerSystem
  import opened BrokerInvariant
  import opened BrokerSteps
  import opened BrokerRequests
  import opened BrokerSafety

  // ---------------------------------------------------------------------------
  // Steps of a request
  // ---------------------------------------------------------------------------

  /** What has to hold for the step of a request to be taken at all. */
  ghost predicate CanStep(s: System, o: Owner) {
    && s.up && o in s.procs && o in s.b.mem.sessions
    && HasInvocation(s.b.mem.sessions[o], s.procs[o].prompt, s.procs[o].seqNo)
  }

  lemma StartedSides(l: Ledger, o: Owner, p: Proc, w: World, pc: Pc)
    requires SideInv(l, o, Some(p), w) && p.pc.Started? && o in l.sessions
    requires || (pc.SessionReady? && l.sessions[o].createState.Known? && pc.remote == l.sessions[o].remoteID)
             || (pc.Prepared? && l.sessions[o].createState.NotCreated? && pc.remote !in w.creates && pc.remote != "")
    ensures SideInv(l, o, Some(At(p, pc)), w)
  {
    SideOpen(l, o, Some(p), w);
    StartedMoves(l.sessions[o], p, w, pc);
    SideClose(l, o, l.sessions[o], Some(At(p, pc)), w);
  }

  lemma StartedMoves(s: Session, p: Proc, w: World, pc: Pc)
    requires ProcFacts(s, p, w) && p.pc.Started?
    requires || (pc.SessionReady? && s.createState.Known? && pc.remote == s.remoteID)
             || (pc.Prepared? && s.createState.NotCreated? && pc.remote !in w.creates && pc.remote != "")
    ensures ProcFacts(s, At(p, pc), w)
  {
  }

  lemma StartedKeeps(s: System, o: Owner, pc: Pc)
    requires SystemInv(s) && CanStep(s, o) && s.procs[o].pc.Started?
    requires var m := s.b.mem.sessions[o];
             || (pc.SessionReady? && m.createState.Known? && pc.remote == m.remoteID)
             || (pc.Prepared? && m.createState.NotCreated? && pc.remote !in WorldOf(s, o).creates && pc.remote != "" && s.b.mem.principal != "")
    ensures Kept(s, SetPc(s, o, pc))
  {
    assert OwnerInv(s, o);
    OwnerSides(s, o);
    StartedSides(s.b.mem, o, s.procs[o], WorldOf(s, o), pc);
    StartedSides(s.b.disk, o, s.procs[o], WorldOf(s, o), pc);
    OwnerExchange(s, o, pc, WorldOf(s, o));
    PcKeeps(s, o, pc);
  }

  lemma PlainExchange(s: System, o: Owner, pc: Pc)
    requires SystemInv(s) && s.up && o in s.procs && Exchange(s.procs[o], WorldOf(s, o), pc, WorldOf(s, o))
    ensures Kept(s, SetPc(s, o, pc))
  {
    ExchangeStep(s, o, pc, WorldOf(s, o));
  }

  lemma CreateIntentKeeps(size: Ledger -> nat, s: System, o: Owner, late: bool, io: Io)
    requires SystemInv(s) && CanStep(s, o) && s.procs[o].pc.Prepared?
    ensures Kept(s, ProcStep(size, s, o, CommitCreateIntent(late, io)))
  {
    hide SystemInv, Kept, ProcCommit, SetPc, LedgerInv, ProcessInv, CommitSession, SideInv, WorkerFacts;
    var p := s.procs[o];
    var cancelled := RequestCancelled(s.b, o) || late;
    ReadyNow(s, o);
    CreateIntentDurable(s.b.mem, o, p, cancelled, s.now, WorldOf(s, o));
    CommitStep(size, s, false, o, CreateIntentChange(s.b.mem.sessions[o], p.prompt, p.pc.remote, cancelled, s.now), io,
               CreateReady(p.pc.remote), Ended(Failed));
  }

  lemma CreateResultKeeps(size: Ledger -> nat, s: System, o: Owner, io: Io, done: Pc)
    requires SystemInv(s) && CanStep(s, o) && s.procs[o].pc.CreateAnswered?
    requires done == if s.procs[o].pc.created then SessionReady(s.procs[o].pc.remote) else Ended(Failed)
    ensures Kept(s, ProcCommit(size, s, false, o, Ok(CreateResultChange(s.b.mem.sessions[o], s.procs[o].pc.created)), io,
                                 done, Ended(Failed)))
  {
    var p := s.procs[o];
    ReadyNow(s, o);
    CreateResultDurable(s.b.mem, o, p, WorldOf(s, o));
    CommitStep(size, s, false, o, Ok(CreateResultChange(s.b.mem.sessions[o], p.pc.created)), io, done, Ended(Failed));
  }

  lemma InferIntentKeeps(size: Ledger -> nat, s: System, o: Owner, io: Io)
    requires SystemInv(s) && CanStep(s, o) && s.procs[o].pc.SessionReady?
    ensures var p := s.procs[o];
            Kept(s, ProcCommit(size, s, false, o,
                                 InferIntentChange(s.b.mem.sessions[o], p.prompt, p.seqNo, RequestCancelled(s.b, o), s.now),
                                 io, InferReady(p.pc.remote), Ended(Failed)))
  {
    var p := s.procs[o];
    ReadyNow(s, o);
    InferIntentDurable(s.b.mem, o, p, RequestCancelled(s.b, o), s.now, WorldOf(s, o));
    CommitStep(size, s, false, o, InferIntentChange(s.b.mem.sessions[o], p.prompt, p.seqNo, RequestCancelled(s.b, o), s.now), io,
               InferReady(p.pc.remote), Ended(Failed));
  }

  lemma RefusalKeeps(size: Ledger -> nat, s: System, o: Owner, io: Io)
    requires SystemInv(s) && CanStep(s, o) && s.procs[o].pc.InferRefused?
    ensures Kept(s, ProcStep(size, s, o, CommitRefusal(io)))
  {
    hide SystemInv, SideInv, ProcCommit, Kept, Commit, CommitSession, LedgerInv, ProcessInv, CompleteChange, OwnerInv;
    var p := s.procs[o];
    ReadyNow(s, o);
    RefusalDurable(s.b.mem, o, p, WorldOf(s, o));
    CommitStep(size, s, false, o, Ok(RefusalChange(s.b.mem.sessions[o], p.prompt, p.seqNo)), io, Ended(Failed), Ended(Failed));
  }

  lemma CompleteKeeps(size: Ledger -> nat, s: System, o: Owner, r: Summary, aliases: seq<string>, io: Io)
    requires SystemInv(s) && CanStep(s, o) && s.procs[o].pc.Streaming? && |aliases| == |r.calls|
    ensures Kept(s, ProcStep(size, s, o, Complete(r, aliases, io)))
  {
    var p := s.procs[o];
    ReadyNow(s, o);
    CompleteDurable(s.b.mem, o, p, r, aliases, s.now, WorldOf(s, o));
    CommitStep(size, s, true, o, CompleteChange(s.b.mem.sessions[o], p.prompt, p.seqNo, r, aliases, s.now), io,
               Ended(Success), Ended(Failed));
  }

  lemma CommitEventKeeps(size: Ledger -> nat, s: System, o: Owner, e: ProcEvent)
    requires SystemInv(s) && CanStep(s, o)
    requires e.CommitCreateIntent? || e.CommitCreateResult? || e.CommitInferIntent? || e.CommitRefusal? || e.Complete?
    ensures Kept(s, ProcStep(size, s, o, e))
  {
    hide SystemInv, LedgerInv, ProcessInv, OwnerInv, ProcOf, ProcCommit, HasInvocation, CommitSession, SideInv, RefusedCreate;
    var pc := s.procs[o].pc;
    match e
    case CommitCreateIntent(late, io) => if pc.Prepared? { CreateIntentKeeps(size, s, o, late, io); }
    case CommitCreateResult(io) => if pc.CreateAnswered? {
        CreateResultKeeps(size, s, o, io, if pc.created then SessionReady(pc.remote) else Ended(Failed));
      }
    case CommitInferIntent(io) => if pc.SessionReady? { InferIntentKeeps(size, s, o, io); }
    case CommitRefusal(io) => if pc.InferRefused? { RefusalKeeps(size, s, o, io); }
    case Complete(r, aliases, io) => if pc.Streaming? && |aliases| == |r.calls| { CompleteKeeps(size, s, o, r, aliases, io); }
  }

  lemma IdentityEventKeeps(size: Ledger -> nat, s: System, o: Owner, id: string, matches: bool, alias: string, io: Io)
    requires SystemInv(s) && CanStep(s, o)
    ensures Kept(s, ProcStep(size, s, o, Identity(id, matches, alias, io)))
  {
    hide ProcessInv, LedgerInv, OwnersInv;
    var p := s.procs[o];
    if p.pc.InferSent? || p.pc.Streaming? {
      PlainExchange(s, o, Ended(AcceptanceUnknown));
      var previous := s.b.mem.sessions[o].prompts[p.prompt].invocations[p.seqNo].responseID;
      StreamingAnswered(s, o);
      if id != "" && previous == "" && AliasValid(alias, RESPONSE_PREFIX) && alias !in s.b.mem.sessions[o].responses {
        IdentityKeeps(size, s, o, id, alias, io);
      }
    }
  }

  lemma StreamingAnswered(s: System, o: Owner)
    requires SystemInv(s) && CanStep(s, o)
    ensures s.procs[o].pc.Streaming? ==>
              s.b.mem.sessions[o].prompts[s.procs[o].prompt].invocations[s.procs[o].seqNo].responseID != ""
  {
    var p := s.procs[o];
    ReadyNow(s, o);
    SideOpen(s.b.mem, o, Some(p), WorldOf(s, o));
    if p.pc.Streaming? {
      StreamingID(s.b.mem.sessions[o], o, p, WorldOf(s, o));
    }
  }

  lemma StreamingID(m: Session, o: Owner, p: Proc, w: World)
    requires SessionValid(m, o) && ProcFacts(m, p, w) && p.pc.Streaming?
    ensures m.prompts[p.prompt].invocations[p.seqNo].responseID != ""
  {
    StreamingAccepted(m, p, w);
    AcceptedFacts(m, o, p.prompt, p.seqNo);
  }

  lemma StreamingAccepted(m: Session, p: Proc, w: World)
    requires ProcFacts(m, p, w) && p.pc.Streaming?
    ensures m.prompts[p.prompt].invocations[p.seqNo].state.Accepted?
  {
  }

  /** The remote exchange behind an event that touches no ledger. */
  function Exchanged(s: System, o: Owner, e: ProcEvent): (Pc, World)
    requires o in s.procs
  {
    var p, w := s.procs[o], WorldOf(s, o);
    match e
    case SendCreate => if p.pc.CreateReady? then (CreateSent(p.pc.remote), SentCreate(w, p.pc.remote)) else (p.pc, w)
    case SkipCreate => if p.pc.CreateReady? then (CreateAnswered(p.pc.remote, false), w) else (p.pc, w)
    case CreateAcknowledged => if p.pc.CreateSent? then (CreateAnswered(p.pc.remote, true), AckedCreate(w, p.pc.remote)) else (p.pc, w)
    case CreateRefused => if p.pc.CreateSent? then (CreateAnswered(p.pc.remote, false), RefusedCreate(w, p.pc.remote)) else (p.pc, w)
    case CreateUnknown => if p.pc.CreateSent? then (Ended(AcceptanceUnknown), w) else (p.pc, w)
    case SendInfer => if p.pc.InferReady? then (InferSent(p.pc.remote), SentInfer(w, p)) else (p.pc, w)
    case InferRefusal => if p.pc.InferSent? then (InferRefused(p.pc.remote), RefusedInfer(w, KeyOf(p))) else (p.pc, w)
    case InferUnknown => if p.pc.InferSent? || p.pc.Streaming? then (Ended(AcceptanceUnknown), w) else (p.pc, w)
    case _ => (if p.pc.Ended? then p.pc else Ended(Failed), w)
  }

  ghost predicate ExchangeEvent(e: ProcEvent) {
    || e.SeeUnsettledCreate? || e.Abandon? || e.SendCreate? || e.SkipCreate? || e.CreateAcknowledged? || e.CreateRefused?
    || e.CreateUnknown? || e.SendInfer? || e.SkipInfer? || e.InferRefusal? || e.InferUnknown?
  }

  /** Nothing happened, or the request and the remote world made the exchange. */
  ghost predicate ExchangeMade(size: Ledger -> nat, s: System, o: Owner, e: ProcEvent)
    requires CanStep(s, o)
  {
    var (pc, w) := Exchanged(s, o, e);
    var t := ProcStep(size, s, o, e);
    || t == s
    || (Exchange(s.procs[o], WorldOf(s, o), pc, w)
        && (t == SetPc(SetWorld(s, o, w), o, pc) || (w == WorldOf(s, o) && t == SetPc(s, o, pc))))
  }

  lemma SentMeaning(size: Ledger -> nat, s: System, o: Owner, e: ProcEvent)
    requires CanStep(s, o) && ExchangeEvent(e) && (e.SendCreate? || e.SendInfer? || e.SkipCreate? || e.SkipInfer? || e.Abandon?)
    ensures ExchangeMade(size, s, o, e)
  {
    hide CommitSession, CreateIntentChange, InferIntentChange, IdentityChange, CompleteChange, FinishChange, RefusalChange, CreateResultChange, AliasValid, IdentifierValid, FreshAliases, UuidValid, FinishInvocation;
  }

  lemma AnsweredMeaning(size: Ledger -> nat, s: System, o: Owner, e: ProcEvent)
    requires CanStep(s, o) && ExchangeEvent(e) && !(e.SendCreate? || e.SendInfer? || e.SkipCreate? || e.SkipInfer? || e.Abandon?)
    ensures ExchangeMade(size, s, o, e)
  {
    hide CommitSession, CreateIntentChange, InferIntentChange, IdentityChange, CompleteChange, FinishChange, RefusalChange, CreateResultChange, AliasValid, IdentifierValid, FreshAliases, UuidValid, FinishInvocation;
  }

  lemma ExchangeEventMeaning(size: Ledger -> nat, s: System, o: Owner, e: ProcEvent)
    requires CanStep(s, o) && ExchangeEvent(e)
    ensures ExchangeMade(size, s, o, e)
  {
    hide ExchangeMade, CanStep;
    if e.SendCreate? || e.SendInfer? || e.SkipCreate? || e.SkipInfer? || e.Abandon? {
      SentMeaning(size, s, o, e);
    } else {
      AnsweredMeaning(size, s, o, e);
    }
  }

  lemma ExchangeEventKeeps(size: Ledger -> nat, s: System, o: Owner, e: ProcEvent)
    requires SystemInv(s) && CanStep(s, o) && ExchangeEvent(e)
    ensures Kept(s, ProcStep(size, s, o, e))
  {
    hide ProcStep, Exchanged, Exchange, SystemInv, HasInvocation, ExchangeEvent;
    ExchangeEventMeaning(size, s, o, e);
    if ProcStep(size, s, o, e) != s {
      ExchangeStep(s, o, Exchanged(s, o, e).0, Exchanged(s, o, e).1);
    }
  }

  // ---------------------------------------------------------------------------
  // The end of a request
  // ---------------------------------------------------------------------------

  /** A ledger in which one owner's record has made a step that its remote world backs. */
  lemma WorkedSide(l: Ledger, o: Owner, s: Session, t: Session, w: World)
    requires WorkStep(s, t, o, w)
    ensures SideInv(PutSession(l, o, t), o, None, w)
  {
    SideClose(PutSession(l, o, t), o, t, None, w);
  }

  lemma SideIdle(l: Ledger, o: Owner, p: Option<Proc>, w: World)
    requires SideInv(l, o, p, w)
    ensures SideInv(l, o, None, w)
  {
    forall s | Record(l, o, s) ensures RecordInv(s, o, None, w) {
      assert RecordInv(s, o, p, w);
    }
  }

  function Idle(s: System, o: Owner): System {
    s.(b := s.b.(active := s.b.active - {o}, cancelled := s.b.cancelled - {o}), procs := s.procs - {o})
  }

  lemma FinishMeaning(size: Ledger -> nat, s: System, o: Owner, io: Io)
    requires CanStep(s, o) && s.procs[o].pc.Ended?
    ensures var p := s.procs[o];
            var t := ProcStep(size, s, o, Finish(io));
            var next := Ok(FinishChange(s.b.mem.sessions[o], p.prompt, p.seqNo, p.pc.outcome));
            && t.worlds.Keys == s.worlds.Keys + {o}
            && (forall x :: x != o ==> WorldOf(t, x) == WorldOf(s, x))
            && WorldOf(t, o) == WorldOf(s, o).(unfinished := WorldOf(t, o).unfinished)
            && t == Idle(s.(b := CommitSession(size, s.b, false, o, next, io).0), o).(worlds := t.worlds)
  {
  }

  lemma IdleProcess(s: System, t: System, o: Owner, b: Broker)
    requires ProcessInv(s) && s.up && t == Idle(s.(b := b), o).(worlds := t.worlds) && b.active == s.b.active
    requires (!b.poisoned ==> b.mem == b.disk) && (b.poisoned ==> b.stopped)
    ensures ProcessInv(t)
  {
  }

  lemma IdleOwner(s: System, t: System, o: Owner, b: Broker)
    requires OwnerInv(s, o) && o in s.procs && t == Idle(s.(b := b), o).(worlds := t.worlds)
    requires WorldOf(t, o) == WorldOf(s, o).(unfinished := WorldOf(t, o).unfinished)
    requires SideInv(b.mem, o, None, WorldOf(s, o)) && SideInv(b.disk, o, None, WorldOf(s, o))
    ensures OwnerInv(t, o)
  {
    SideFrame(b.mem, b.mem, o, None, WorldOf(s, o), WorldOf(t, o));
    SideFrame(b.disk, b.disk, o, None, WorldOf(s, o), WorldOf(t, o));
  }

  lemma LedgersElsewhere(size: Ledger -> nat, b: Broker, ordinary: bool, o: Owner, next: Result<Session, Error>, io: Io)
    requires !b.poisoned ==> b.mem == b.disk
    ensures var b1 := CommitSession(size, b, ordinary, o, next, io).0;
            && b1.active == b.active && b1.mem.principal == b.mem.principal
            && (forall x :: x != o ==> SameSession(b.mem, b1.mem, x) && SameSession(b.disk, b1.disk, x))
            && ((!b.poisoned ==> b.mem == b.disk) ==> (!b1.poisoned ==> b1.mem == b1.disk))
            && ((b.poisoned ==> b.stopped) ==> (b1.poisoned ==> b1.stopped))
  {
    CommitOutcome(size, b, ordinary, OnSession(b.mem, o, next), io);
  }

  /** Both ledgers after a commit of one owner's record with no request in flight. */
  lemma WorkedSides(size: Ledger -> nat, b: Broker, ordinary: bool, o: Owner, next: Result<Session, Error>, io: Io, w: World)
    requires (!b.poisoned ==> b.mem == b.disk) && o in b.mem.sessions
    requires SideInv(b.mem, o, None, w) && SideInv(b.disk, o, None, w)
    requires next.Ok? ==> WorkStep(b.mem.sessions[o], next.value, o, w)
    ensures var b1 := CommitSession(size, b, ordinary, o, next, io).0;
            SideInv(b1.mem, o, None, w) && SideInv(b1.disk, o, None, w)
  {
    CommitOutcome(size, b, ordinary, OnSession(b.mem, o, next), io);
    if next.Ok? {
      WorkedSide(b.mem, o, b.mem.sessions[o], next.value, w);
    }
  }

  lemma FinishRemote(s: Session, p: Proc)
    requires HasInvocation(s, p.prompt, p.seqNo) && p.pc.Ended?
    ensures FinishChange(s, p.prompt, p.seqNo, p.pc.outcome).remoteID == s.remoteID
  {
  }

  lemma FinishSides(size: Ledger -> nat, s: System, o: Owner, io: Io)
    requires SystemInv(s) && CanStep(s, o) && s.procs[o].pc.Ended?
    ensures var p := s.procs[o];
            var next := Ok(FinishChange(s.b.mem.sessions[o], p.prompt, p.seqNo, p.pc.outcome));
            var b1 := CommitSession(size, s.b, false, o, next, io).0;
            && SideInv(b1.mem, o, None, WorldOf(s, o)) && SideInv(b1.disk, o, None, WorldOf(s, o))
            && LedgerInv(b1.mem) && LedgerInv(b1.disk)
            && Forward(s.b.mem, PutSession(s.b.mem, o, next.value))
  {
    var p := s.procs[o];
    var m := s.b.mem.sessions[o];
    var next := Ok(FinishChange(m, p.prompt, p.seqNo, p.pc.outcome));
    assert OwnerInv(s, o);
    OwnerSides(s, o);
    SideOpen(s.b.mem, o, Some(p), WorldOf(s, o));
    FinishCommitted(m, o, p, WorldOf(s, o));
    SideIdle(s.b.mem, o, Some(p), WorldOf(s, o));
    SideIdle(s.b.disk, o, Some(p), WorldOf(s, o));
    WorkedSides(size, s.b, false, o, next, io, WorldOf(s, o));
    FinishRemote(m, p);
    PutForward(s.b.mem, o, next.value);
    CommitLedgers(size, s.b, false, o, next, io);
  }

  lemma IdleElsewhere(s: System, t: System, o: Owner, b: Broker)
    requires t == Idle(s.(b := b), o).(worlds := t.worlds) && b.mem.principal == s.b.mem.principal
    requires forall x :: x != o ==> SameSession(s.b.mem, b.mem, x) && SameSession(s.b.disk, b.disk, x)
    requires forall x :: x != o ==> WorldOf(t, x) == WorldOf(s, x)
    ensures forall x :: x != o ==> SameOwner(s, t, x)
  {
  }

  lemma IdleKeeps(s: System, t: System, o: Owner, b: Broker)
    requires SystemInv(s) && s.up && o in s.procs && t == Idle(s.(b := b), o).(worlds := t.worlds)
    requires b.active == s.b.active && (!b.poisoned ==> b.mem == b.disk) && (b.poisoned ==> b.stopped)
    requires LedgerInv(b.mem) && LedgerInv(b.disk)
    requires OwnerInv(t, o) && forall x :: x != o ==> SameOwner(s, t, x)
    ensures SystemInv(t)
  {
    IdleProcess(s, t, o, b);
    AllOwners(s, t, o);
  }

  lemma FinishKeeps(size: Ledger -> nat, s: System, o: Owner, io: Io)
    requires SystemInv(s) && CanStep(s, o) && s.procs[o].pc.Ended?
    ensures Kept(s, ProcStep(size, s, o, Finish(io)))
  {
    var p := s.procs[o];
    var next := Ok(FinishChange(s.b.mem.sessions[o], p.prompt, p.seqNo, p.pc.outcome));
    var b1 := CommitSession(size, s.b, false, o, next, io).0;
    var t := ProcStep(size, s, o, Finish(io));
    FinishMeaning(size, s, o, io);
    FinishSides(size, s, o, io);
    LedgersElsewhere(size, s.b, false, o, next, io);
    assert OwnerInv(s, o);
    IdleOwner(s, t, o, b1);
    IdleElsewhere(s, t, o, b1);
    IdleKeeps(s, t, o, b1);
    CommitOnward(size, s.b, false, OnSession(s.b.mem, o, next), io);
  }

  lemma ProcStepKeeps(size: Ledger -> nat, s: System, o: Owner, e: ProcEvent)
    requires SystemInv(s) && CanStep(s, o)
    ensures Kept(s, ProcStep(size, s, o, e))
  {
    var pc := s.procs[o].pc;
    if ExchangeEvent(e) {
      ExchangeEventKeeps(size, s, o, e);
    } else {
      match e
      case SeeKnown =>
        if pc.Started? && s.b.mem.sessions[o].createState.Known? { StartedKeeps(s, o, SessionReady(s.b.mem.sessions[o].remoteID)); }
      case PrepareCreate(remote) =>
        if pc.Started? && s.b.mem.sessions[o].createState.NotCreated? && s.b.mem.principal != "" && FreshRemote(s, o, remote) {
          StartedKeeps(s, o, Prepared(remote));
        }
      case Identity(id, matches, alias, io) => IdentityEventKeeps(size, s, o, id, matches, alias, io);
      case Finish(io) => if pc.Ended? { FinishKeeps(size, s, o, io); }
      case _ => CommitEventKeeps(size, s, o, e);
    }
  }
}
