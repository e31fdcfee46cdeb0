/** What ties the ledgers, the requests in flight, the cleanup workers and the remote world together. */
module BrokerInvariant {
  import opened Wrappers
  import opened BrokerLedger
  import opened BrokerChanges
  import opened BrokerValidity
  import opened BrokerSystem

  // ---------------------------------------------------------------------------
  // One record and the remote world
  // ---------------------------------------------------------------------------

  /** What an invocation's durable state says about its request, once it was sent. */
  ghost predicate Fate(state: InvocationState, r: InferRec) {
    match state
    case Reserved => false
    case Intent | Uncertain => true
    case Rejected => r.rejected
    case Accepted | Completed => r.acked
    case Finalized => r.rejected || (r.acked && r.quiet)
  }

  ghost predicate InferAccounted(s: Session, key: InferKey, r: InferRec) {
    && r.attempts == 1
    && HasInvocation(s, key.prompt, key.seqNo)
    && s.prompts[key.prompt].invocations[key.seqNo].operationID == r.operationID
    && Fate(s.prompts[key.prompt].invocations[key.seqNo].state, r)
  }

  ghost predicate InfersAccounted(s: Session, w: World) {
    forall key :: key in w.infers ==> InferAccounted(s, key, w.infers[key])
  }

  ghost predicate CreatesAccounted(s: Session, w: World) {
    && (forall r :: r in w.creates ==>
                      && w.creates[r].attempts == 1
                      && (!w.creates[r].rejected ==> s.remoteID == r && !s.createState.NotCreated?))
    && (s.createState.Known? || s.createState.Deleted? ==>
          s.remoteID in w.creates && w.creates[s.remoteID].acked && !w.creates[s.remoteID].rejected)
    && (s.createState.Deleted? ==> s.remoteID in w.gone)
  }

  ghost predicate SessionWorld(s: Session, w: World) {
    InfersAccounted(s, w) && CreatesAccounted(s, w)
  }

  // ---------------------------------------------------------------------------
  // A request in flight
  // ---------------------------------------------------------------------------

  ghost predicate ProcBase(s: Session, p: Proc) {
    && HasInvocation(s, p.prompt, p.seqNo)
    && s.current == Some(p.prompt) && !s.prompts[p.prompt].settled && !s.retired
    && s.prompts[p.prompt].lastSequence == p.seqNo
    && s.prompts[p.prompt].invocations[p.seqNo].operationID == p.operationID
  }

  ghost predicate Unsent(w: World, p: Proc) {
    KeyOf(p) !in w.infers
  }

  ghost predicate PcFacts(s: Session, p: Proc, w: World)
    requires ProcBase(s, p)
  {
    var i := s.prompts[p.prompt].invocations[p.seqNo];
    match p.pc
    case Started => i.state.Reserved?
    case Prepared(r) => i.state.Reserved? && s.createState.NotCreated? && r !in w.creates && r != ""
    case CreateReady(r) => i.state.Reserved? && s.createState.CreateIntent? && s.remoteID == r && r !in w.creates
    case CreateSent(r) =>
      && i.state.Reserved? && s.createState.CreateIntent? && s.remoteID == r
      && r in w.creates && !w.creates[r].rejected
    case CreateAnswered(r, created) =>
      && i.state.Reserved? && s.createState.CreateIntent? && s.remoteID == r
      && (if created then r in w.creates && w.creates[r].acked && !w.creates[r].rejected
          else r in w.creates ==> w.creates[r].rejected)
    case SessionReady(r) => i.state.Reserved? && s.createState.Known? && s.remoteID == r
    case InferReady(r) => i.state.Intent? && s.createState.Known? && s.remoteID == r && Unsent(w, p)
    case InferSent(r) => i.state.Intent? && s.createState.Known? && s.remoteID == r && KeyOf(p) in w.infers
    case InferRefused(r) =>
      i.state.Intent? && s.createState.Known? && s.remoteID == r && KeyOf(p) in w.infers && w.infers[KeyOf(p)].rejected
    case Streaming(r, id) =>
      && i.state.Accepted? && i.responseID == id && s.createState.Known? && s.remoteID == r
    case Ended(outcome) =>
      match outcome
      case Success => i.state.Completed?
      case AcceptanceUnknown => true
      case Failed => i.state.Intent? ==> Unsent(w, p) || w.infers[KeyOf(p)].rejected
  }

  ghost predicate ProcFacts(s: Session, p: Proc, w: World) {
    ProcBase(s, p) && PcFacts(s, p, w)
  }

  // ---------------------------------------------------------------------------
  // A cleanup worker
  // ---------------------------------------------------------------------------

  ghost predicate QuietWorld(k: Worker, w: World) {
    forall key :: key in w.infers && key.prompt in k.closing ==> w.infers[key].quiet
  }

  ghost predicate StageFacts(k: Worker, w: World) {
    match k.stage
    case Captured => true
    case Deleting => MayDelete(k)
    case Evidence(kind) =>
      && !k.ambiguous
      && (MayDelete(k) ==> kind.DeletedGone? && k.remote in w.gone && QuietWorld(k, w))
      && (RestsQuiet(k) ==> kind.Quiescent?)
      && (MustStop(k) ==> kind.StopIdle? && QuietWorld(k, w))
      && (!k.createState.Known? ==> kind.NeverCreated?)
  }

  ghost predicate CapturedFacts(m: Session, k: Worker) {
    && !m.retired && m.createState == k.createState && m.remoteID == k.remote && !m.createState.CreateIntent?
    && (k.retiring ==> m.retiring) && (k.closing != {} || k.retiring)
    && (forall c :: c in k.closing ==> c in m.prompts && m.prompts[c].closing && !m.prompts[c].settled)
    && (!k.ambiguous ==> !SessionAmbiguous(m))
    && (k.quiet ==> forall c :: c in k.closing ==>
                      forall q :: q in m.prompts[c].invocations ==> QuietInvocation(m.prompts[c].invocations[q]))
  }

  ghost predicate WorkerFacts(m: Session, k: Worker, w: World) {
    CapturedFacts(m, k) && StageFacts(k, w)
  }

  // ---------------------------------------------------------------------------
  // The whole system
  // ---------------------------------------------------------------------------

  function ProcOf(s: System, o: Owner): Option<Proc> {
    if o in s.procs then Some(s.procs[o]) else None
  }

  ghost predicate Record(l: Ledger, o: Owner, s: Session) {
    o in l.sessions && l.sessions[o] == s
  }

  /** What holds of an owner's record in one of the two ledgers. */
  ghost predicate RecordInv(s: Session, o: Owner, p: Option<Proc>, w: World) {
    SessionSound(s, o) && SessionWorld(s, w) && (p.Some? ==> ProcFacts(s, p.value, w))
  }

  ghost predicate SideInv(l: Ledger, o: Owner, p: Option<Proc>, w: World) {
    && (forall s :: Record(l, o, s) ==> RecordInv(s, o, p, w))
    && (o !in l.sessions ==> p.None? && w.creates == map[] && w.infers == map[])
  }

  /** Both ledgers tell a running request the same about its remote session. */
  ghost predicate SidesAgree(mem: Ledger, disk: Ledger, o: Owner) {
    && o in mem.sessions && o in disk.sessions
    && mem.sessions[o].createState == disk.sessions[o].createState
    && mem.sessions[o].remoteID == disk.sessions[o].remoteID
  }

  ghost predicate OwnerInv(s: System, o: Owner) {
    && SideInv(s.b.mem, o, ProcOf(s, o), WorldOf(s, o))
    && SideInv(s.b.disk, o, ProcOf(s, o), WorldOf(s, o))
    && (o in s.workers ==> o in s.b.mem.sessions && o !in s.procs && WorkerFacts(s.b.mem.sessions[o], s.workers[o], WorldOf(s, o)))
    && (o in s.procs ==>
          && (s.procs[o].pc.Prepared? ==> s.b.mem.principal != "")
          && (!s.procs[o].pc.Ended? ==> SidesAgree(s.b.mem, s.b.disk, o)))
  }

  ghost predicate LedgerInv(l: Ledger) {
    && |l.sessions| <= MAX_OWNERS
    && forall o :: o in l.sessions && l.sessions[o].remoteID != "" ==> l.principal != ""
  }

  ghost predicate ProcessInv(s: System) {
    && (if s.up then (!s.b.poisoned ==> s.b.mem == s.b.disk) && (s.b.poisoned ==> s.b.stopped)
        else s.procs == map[] && s.workers == map[] && s.b.mem == s.b.disk && s.b.poisoned && s.b.stopped)
    && s.procs.Keys == s.b.active.Keys
    && forall o :: o in s.procs ==> s.b.active[o] == s.procs[o].prompt
  }

  ghost predicate OwnersInv(s: System) {
    forall o :: OwnerInv(s, o)
  }

  ghost predicate SystemInv(s: System) {
    && s.now > 0
    && ProcessInv(s)
    && LedgerInv(s.b.mem) && LedgerInv(s.b.disk)
    && OwnersInv(s)
  }
}
