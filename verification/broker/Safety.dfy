/** The invariant holds of every run. */
module BrokerSafety {
  import opened Wrappers
  import opened BrokerLedger
  import opened BrokerChanges
  import opened BrokerValidity
  import opened BrokerSystem
  import opened BrokerInvariant
  import opened BrokerRequests

  // ---------------------------------------------------------------------------
  // One owner at a time
  // ---------------------------------------------------------------------------

  ghost predicate SameSession(l: Ledger, m: Ledger, o: Owner) {
    (o in l.sessions <==> o in m.sessions) && (o in l.sessions ==> m.sessions[o] == l.sessions[o])
  }

  ghost predicate SameOwner(s: System, t: System, o: Owner) {
    && SameSession(s.b.mem, t.b.mem, o) && SameSession(s.b.disk, t.b.disk, o)
    && ProcOf(t, o) == ProcOf(s, o)
    && (o in t.workers ==> o in s.workers && t.workers[o] == s.workers[o])
    && WorldOf(t, o).creates == WorldOf(s, o).creates && WorldOf(t, o).infers == WorldOf(s, o).infers
    && WorldOf(t, o).gone == WorldOf(s, o).gone
    && (s.b.mem.principal != "" ==> t.b.mem.principal != "")
  }

  lemma RecordFrame(s: Session, o: Owner, p: Option<Proc>, w: World, v: World)
    requires RecordInv(s, o, p, w)
    requires v.creates == w.creates && v.infers == w.infers && v.gone == w.gone
    ensures RecordInv(s, o, p, v)
  {
    forall key | key in v.infers ensures InferAccounted(s, key, v.infers[key]) {
      assert InferAccounted(s, key, w.infers[key]);
    }
  }

  lemma SideFrame(l: Ledger, m: Ledger, o: Owner, p: Option<Proc>, w: World, v: World)
    requires SideInv(l, o, p, w) && SameSession(l, m, o)
    requires v.creates == w.creates && v.infers == w.infers && v.gone == w.gone
    ensures SideInv(m, o, p, v)
  {
    forall s | Record(m, o, s) ensures RecordInv(s, o, p, v) {
      assert Record(l, o, s);
      RecordFrame(s, o, p, w, v);
    }
  }

  lemma SideOpen(l: Ledger, o: Owner, p: Option<Proc>, w: World)
    requires SideInv(l, o, p, w) && o in l.sessions
    ensures RecordInv(l.sessions[o], o, p, w)
  {
    assert Record(l, o, l.sessions[o]);
  }

  lemma SideClose(l: Ledger, o: Owner, s: Session, p: Option<Proc>, w: World)
    requires RecordInv(s, o, p, w) && Record(l, o, s)
    ensures SideInv(l, o, p, w)
  {
  }

  lemma OwnerFrame(s: System, t: System, o: Owner)
    requires OwnerInv(s, o) && SameOwner(s, t, o)
    ensures OwnerInv(t, o)
  {
    SideFrame(s.b.mem, t.b.mem, o, ProcOf(s, o), WorldOf(s, o), WorldOf(t, o));
    SideFrame(s.b.disk, t.b.disk, o, ProcOf(s, o), WorldOf(s, o), WorldOf(t, o));
  }

  lemma AllOwners(s: System, t: System, o: Owner)
    requires OwnersInv(s)
    requires forall x :: x != o ==> SameOwner(s, t, x)
    requires OwnerInv(t, o)
    ensures OwnersInv(t)
  {
    forall x ensures OwnerInv(t, x) {
      if x != o {
        OwnerFrame(s, t, x);
      }
    }
  }

  // ---------------------------------------------------------------------------
  // The transaction
  // ---------------------------------------------------------------------------

  /** Memory and disk after a commit, whatever its outcome. */
  lemma CommitOutcome(size: Ledger -> nat, b: Broker, ordinary: bool, next: Result<Ledger, Error>, io: Io)
    ensures var (b1, r) := Commit(size, b, ordinary, next, io);
            && b1.active == b.active
            && (r.Ok? ==> !b.poisoned && next.Ok? && b1 == b.(mem := next.value, disk := next.value))
            && (r.Err? ==> b1.mem == b.mem && (b1.disk == b.disk || (!b.poisoned && next.Ok? && b1.disk == next.value && b1.poisoned)))
            && (b.poisoned ==> b1 == b)
            && (b1.poisoned && !b.poisoned ==> b1.stopped && b1.cancelled == b.active.Keys)
            && (!b1.poisoned && r.Err? ==> b1 == b)
  {
  }

  lemma PutLedgerInv(l: Ledger, o: Owner, s: Session)
    requires LedgerInv(l) && (o in l.sessions || |l.sessions| < MAX_OWNERS)
    requires s.remoteID != "" ==> l.principal != ""
    ensures LedgerInv(PutSession(l, o, s))
  {
    var m := PutSession(l, o, s);
    if o in l.sessions {
      assert m.sessions.Keys == l.sessions.Keys;
      assert |m.sessions| == |m.sessions.Keys|;
    } else {
      assert |m.sessions| == |l.sessions| + 1;
    }
  }

  /** A pinned account stays, and every owner of `l` is in `m` with a record that has only moved forwards. */
  ghost predicate Forward(l: Ledger, m: Ledger) {
    && (l.principal != "" ==> m.principal == l.principal)
    && l.sessions.Keys <= m.sessions.Keys
    && forall o, s, t :: Record(l, o, s) && Record(m, o, t) ==> SessionAdvances(s, t)
  }

  /** What one event does to the two ledgers. */
  ghost predicate Onward(b: Broker, b1: Broker) {
    && (b1.disk == b.disk || (b.disk == b.mem && Forward(b.disk, b1.disk)))
    && (b1.mem == b.mem || b1.mem == b1.disk)
  }

  ghost predicate Kept(s: System, t: System) {
    SystemInv(t) && Onward(s.b, t.b)
  }

  lemma SessionAdvancesSelf(s: Session)
    ensures SessionAdvances(s, s)
  {
    forall k | k in s.prompts ensures PromptAdvances(s.prompts[k], s.prompts[k]) {
      PromptAdvancesSelf(s.prompts[k]);
    }
    AdvancesByPrompts(s, s);
  }

  lemma PutForward(l: Ledger, o: Owner, t: Session)
    requires o in l.sessions ==> SessionAdvances(l.sessions[o], t)
    ensures Forward(l, PutSession(l, o, t))
  {
    forall x, s, u | Record(l, x, s) && Record(PutSession(l, o, t), x, u) ensures SessionAdvances(s, u) {
      if x != o { SessionAdvancesSelf(s); }
    }
  }

  lemma CommitOnward(size: Ledger -> nat, b: Broker, ordinary: bool, next: Result<Ledger, Error>, io: Io)
    requires !b.poisoned ==> b.mem == b.disk
    requires next.Ok? ==> Forward(b.mem, next.value)
    ensures Onward(b, Commit(size, b, ordinary, next, io).0)
  {
    CommitOutcome(size, b, ordinary, next, io);
  }

  // ---------------------------------------------------------------------------
  // Steps of a request
  // ---------------------------------------------------------------------------

  lemma ProcessExchange(s: System, t: System, o: Owner)
    requires ProcessInv(s) && o in s.procs && t == s.(procs := t.procs, worlds := t.worlds)
    requires t.procs.Keys == s.procs.Keys && t.procs == s.procs[o := t.procs[o]] && t.procs[o].prompt == s.procs[o].prompt
    requires s.up
    ensures ProcessInv(t)
  {
  }

  lemma OwnerExchange(s: System, o: Owner, pc: Pc, w: World)
    requires OwnerInv(s, o) && o in s.procs
    requires SideInv(s.b.mem, o, Some(At(s.procs[o], pc)), w) && SideInv(s.b.disk, o, Some(At(s.procs[o], pc)), w)
    requires pc.Prepared? ==> s.b.mem.principal != ""
    requires !pc.Ended? ==> !s.procs[o].pc.Ended?
    ensures OwnerInv(SetPc(SetWorld(s, o, w), o, pc), o)
  {
  }

  lemma ExchangeElsewhere(s: System, o: Owner, pc: Pc, w: World)
    requires o in s.procs
    ensures forall x :: x != o ==> SameOwner(s, SetPc(SetWorld(s, o, w), o, pc), x)
    ensures w == WorldOf(s, o) ==> forall x :: SameOwner(SetPc(SetWorld(s, o, w), o, pc), SetPc(s, o, pc), x)
  {
  }

  /** A step that moves one request and its world, and touches no ledger. */
  lemma ExchangeKeeps(s: System, o: Owner, pc: Pc, w: World)
    requires SystemInv(s) && s.up && o in s.procs
    requires OwnerInv(SetPc(SetWorld(s, o, w), o, pc), o)
    ensures SystemInv(SetPc(SetWorld(s, o, w), o, pc))
  {
    var t := SetPc(SetWorld(s, o, w), o, pc);
    ProcessExchange(s, t, o);
    ExchangeElsewhere(s, o, pc, w);
    AllOwners(s, t, o);
  }

  lemma AllOwnersSame(s: System, t: System)
    requires OwnersInv(s)
    requires forall x :: SameOwner(s, t, x)
    ensures OwnersInv(t)
  {
    forall x ensures OwnerInv(t, x) {
      OwnerFrame(s, t, x);
    }
  }

  lemma PcKeeps(s: System, o: Owner, pc: Pc)
    requires SystemInv(s) && s.up && o in s.procs
    requires OwnerInv(SetPc(SetWorld(s, o, WorldOf(s, o)), o, pc), o)
    ensures SystemInv(SetPc(s, o, pc))
  {
    ExchangeKeeps(s, o, pc, WorldOf(s, o));
    ExchangeElsewhere(s, o, pc, WorldOf(s, o));
    AllOwnersSame(SetPc(SetWorld(s, o, WorldOf(s, o)), o, pc), SetPc(s, o, pc));
  }

  /** The owner of a request after its request's commit. */
  lemma OwnerCommit(size: Ledger -> nat, s: System, ordinary: bool, o: Owner, next: Result<Session, Error>, io: Io, done: Pc, failed: Pc)
    requires OwnerInv(s, o) && o in s.procs && o in s.b.mem.sessions && o in s.b.disk.sessions
    requires !s.b.poisoned ==> s.b.mem == s.b.disk
    requires failed.Ended? && !done.Prepared?
    requires SideInv(s.b.mem, o, Some(At(s.procs[o], failed)), WorldOf(s, o))
    requires SideInv(s.b.disk, o, Some(At(s.procs[o], failed)), WorldOf(s, o))
    requires next.Ok? && !s.b.poisoned ==>
               && SideInv(PutSession(s.b.mem, o, next.value), o, Some(At(s.procs[o], done)), WorldOf(s, o))
               && SideInv(PutSession(s.b.mem, o, next.value), o, Some(At(s.procs[o], failed)), WorldOf(s, o))
    ensures OwnerInv(ProcCommit(size, s, ordinary, o, next, io, done, failed), o)
  {
    CommitOutcome(size, s.b, ordinary, OnSession(s.b.mem, o, next), io);
  }

  lemma CommittedSides(l: Ledger, s: Session, t: Session, o: Owner, p: Proc, done: Pc, failed: Pc, w: World)
    requires Committed(s, t, o, p, done, failed, w)
    ensures SideInv(PutSession(l, o, t), o, Some(At(p, done)), w)
    ensures SideInv(PutSession(l, o, t), o, Some(At(p, failed)), w)
    ensures Record(l, o, s) ==> Forward(l, PutSession(l, o, t))
  {
    if Record(l, o, s) { PutForward(l, o, t); }
    SideClose(PutSession(l, o, t), o, t, Some(At(p, done)), w);
    SideClose(PutSession(l, o, t), o, t, Some(At(p, failed)), w);
  }

  lemma CommitElsewhere(size: Ledger -> nat, s: System, ordinary: bool, o: Owner, next: Result<Session, Error>, io: Io, done: Pc, failed: Pc)
    requires o in s.procs && (!s.b.poisoned ==> s.b.mem == s.b.disk)
    ensures forall x :: x != o ==> SameOwner(s, ProcCommit(size, s, ordinary, o, next, io, done, failed), x)
  {
    CommitOutcome(size, s.b, ordinary, OnSession(s.b.mem, o, next), io);
  }

  lemma CommitLedgers(size: Ledger -> nat, b: Broker, ordinary: bool, o: Owner, next: Result<Session, Error>, io: Io)
    requires LedgerInv(b.mem) && LedgerInv(b.disk)
    requires o in b.mem.sessions || |b.mem.sessions| < MAX_OWNERS
    requires next.Ok? && next.value.remoteID != "" ==> b.mem.principal != ""
    ensures LedgerInv(CommitSession(size, b, ordinary, o, next, io).0.mem)
    ensures LedgerInv(CommitSession(size, b, ordinary, o, next, io).0.disk)
  {
    CommitOutcome(size, b, ordinary, OnSession(b.mem, o, next), io);
    if next.Ok? {
      PutLedgerInv(b.mem, o, next.value);
    }
  }

  lemma CommitProcess(size: Ledger -> nat, s: System, ordinary: bool, o: Owner, next: Result<Session, Error>, io: Io, done: Pc, failed: Pc)
    requires ProcessInv(s) && s.up && o in s.procs
    ensures ProcessInv(ProcCommit(size, s, ordinary, o, next, io, done, failed))
  {
    CommitOutcome(size, s.b, ordinary, OnSession(s.b.mem, o, next), io);
  }

  lemma CommitKeeps(size: Ledger -> nat, s: System, ordinary: bool, o: Owner, next: Result<Session, Error>, io: Io, done: Pc, failed: Pc)
    requires SystemInv(s) && s.up && o in s.procs && o in s.b.mem.sessions
    requires next.Ok? && next.value.remoteID != "" ==> s.b.mem.principal != ""
    requires OwnerInv(ProcCommit(size, s, ordinary, o, next, io, done, failed), o)
    ensures SystemInv(ProcCommit(size, s, ordinary, o, next, io, done, failed))
  {
    CommitElsewhere(size, s, ordinary, o, next, io, done, failed);
    CommitLedgers(size, s.b, ordinary, o, next, io);
    CommitProcess(size, s, ordinary, o, next, io, done, failed);
    AllOwners(s, ProcCommit(size, s, ordinary, o, next, io, done, failed), o);
  }

  // ---------------------------------------------------------------------------
  // Each step of a request
  // ---------------------------------------------------------------------------

  lemma SideExchanged(l: Ledger, o: Owner, p: Proc, w: World, pc: Pc, w1: World)
    requires SideInv(l, o, Some(p), w) && Exchange(p, w, pc, w1)
    ensures SideInv(l, o, Some(At(p, pc)), w1)
  {
    forall s | Record(l, o, s) ensures RecordInv(s, o, Some(At(p, pc)), w1) {
      ExchangeRecord(s, o, p, w, pc, w1);
    }
  }

  lemma OwnerSides(s: System, o: Owner)
    requires OwnerInv(s, o) && o in s.procs
    ensures SideInv(s.b.mem, o, Some(s.procs[o]), WorldOf(s, o)) && SideInv(s.b.disk, o, Some(s.procs[o]), WorldOf(s, o))
    ensures o in s.b.mem.sessions && o in s.b.disk.sessions
    ensures !s.procs[o].pc.Ended? ==> SidesAgree(s.b.mem, s.b.disk, o)
    ensures s.procs[o].pc.Prepared? ==> s.b.mem.principal != ""
  {
  }

  lemma ExchangeStep(s: System, o: Owner, pc: Pc, w: World)
    requires SystemInv(s) && s.up && o in s.procs && Exchange(s.procs[o], WorldOf(s, o), pc, w)
    ensures SystemInv(SetPc(SetWorld(s, o, w), o, pc))
    ensures w == WorldOf(s, o) ==> SystemInv(SetPc(s, o, pc))
  {
    assert OwnerInv(s, o);
    OwnerSides(s, o);
    SideExchanged(s.b.mem, o, s.procs[o], WorldOf(s, o), pc, w);
    SideExchanged(s.b.disk, o, s.procs[o], WorldOf(s, o), pc, w);
    OwnerExchange(s, o, pc, w);
    ExchangeKeeps(s, o, pc, w);
    if w == WorldOf(s, o) {
      PcKeeps(s, o, pc);
    }
  }

  /** What a change has to establish about the ledger it would make durable. */
  ghost predicate Durable(l: Ledger, o: Owner, next: Result<Session, Error>, p: Proc, done: Pc, failed: Pc, w: World) {
    next.Ok? ==>
      && SideInv(PutSession(l, o, next.value), o, Some(At(p, done)), w)
      && SideInv(PutSession(l, o, next.value), o, Some(At(p, failed)), w)
      && Forward(l, PutSession(l, o, next.value))
      && (next.value.remoteID != "" ==> l.principal != "")
  }

  lemma CommitStep(size: Ledger -> nat, s: System, ordinary: bool, o: Owner, next: Result<Session, Error>, io: Io, done: Pc, failed: Pc)
    requires SystemInv(s) && s.up && o in s.procs && o in s.b.mem.sessions
    requires Exchange(s.procs[o], WorldOf(s, o), failed, WorldOf(s, o)) && failed.Ended? && !done.Prepared?
    requires Durable(s.b.mem, o, next, s.procs[o], done, failed, WorldOf(s, o))
    ensures Kept(s, ProcCommit(size, s, ordinary, o, next, io, done, failed))
  {
    var p, w := s.procs[o], WorldOf(s, o);
    assert OwnerInv(s, o);
    OwnerSides(s, o);
    SideExchanged(s.b.mem, o, p, w, failed, w);
    SideExchanged(s.b.disk, o, p, w, failed, w);
    OwnerCommit(size, s, ordinary, o, next, io, done, failed);
    CommitKeeps(size, s, ordinary, o, next, io, done, failed);
    CommitOnward(size, s.b, ordinary, OnSession(s.b.mem, o, next), io);
  }

  /** The record of a running request, ready for its next commit. */
  ghost predicate Ready(l: Ledger, o: Owner, p: Proc, w: World) {
    && SideInv(l, o, Some(p), w) && o in l.sessions && HasInvocation(l.sessions[o], p.prompt, p.seqNo)
    && (l.sessions[o].remoteID != "" ==> l.principal != "")
    && (p.pc.Prepared? ==> l.principal != "")
  }

  lemma CreateIntentDurable(l: Ledger, o: Owner, p: Proc, cancelled: bool, now: int, w: World)
    requires Ready(l, o, p, w) && p.pc.Prepared?
    ensures Durable(l, o, CreateIntentChange(l.sessions[o], p.prompt, p.pc.remote, cancelled, now), p,
                    CreateReady(p.pc.remote), Ended(Failed), w)
  {
    SideOpen(l, o, Some(p), w);
    var next := CreateIntentChange(l.sessions[o], p.prompt, p.pc.remote, cancelled, now);
    if next.Ok? {
      CreateIntentCommitted(l.sessions[o], o, p, cancelled, now, w);
      CommittedSides(l, l.sessions[o], next.value, o, p, CreateReady(p.pc.remote), Ended(Failed), w);
    }
  }

  lemma CreateResultDurable(l: Ledger, o: Owner, p: Proc, w: World)
    requires Ready(l, o, p, w) && p.pc.CreateAnswered?
    ensures Durable(l, o, Ok(CreateResultChange(l.sessions[o], p.pc.created)), p,
                    if p.pc.created then SessionReady(p.pc.remote) else Ended(Failed), Ended(Failed), w)
  {
    SideOpen(l, o, Some(p), w);
    CreateResultCommitted(l.sessions[o], o, p, w);
    CommittedSides(l, l.sessions[o], CreateResultChange(l.sessions[o], p.pc.created), o, p,
                   if p.pc.created then SessionReady(p.pc.remote) else Ended(Failed), Ended(Failed), w);
  }

  lemma InferIntentDurable(l: Ledger, o: Owner, p: Proc, cancelled: bool, now: int, w: World)
    requires Ready(l, o, p, w) && p.pc.SessionReady?
    ensures Durable(l, o, InferIntentChange(l.sessions[o], p.prompt, p.seqNo, cancelled, now), p,
                    InferReady(p.pc.remote), Ended(Failed), w)
  {
    SideOpen(l, o, Some(p), w);
    var next := InferIntentChange(l.sessions[o], p.prompt, p.seqNo, cancelled, now);
    if next.Ok? {
      InferIntentCommitted(l.sessions[o], o, p, cancelled, now, w);
      CommittedSides(l, l.sessions[o], next.value, o, p, InferReady(p.pc.remote), Ended(Failed), w);
    }
  }

  lemma RefusalDurable(l: Ledger, o: Owner, p: Proc, w: World)
    requires Ready(l, o, p, w) && p.pc.InferRefused?
    ensures Durable(l, o, Ok(RefusalChange(l.sessions[o], p.prompt, p.seqNo)), p, Ended(Failed), Ended(Failed), w)
  {
    SideOpen(l, o, Some(p), w);
    RefusalCommitted(l.sessions[o], o, p, w);
    CommittedSides(l, l.sessions[o], RefusalChange(l.sessions[o], p.prompt, p.seqNo), o, p, Ended(Failed), Ended(Failed), w);
  }

  lemma IdentityDurable(l: Ledger, o: Owner, p: Proc, id: string, alias: string, w: World)
    requires Ready(l, o, p, w) && p.pc.InferSent? && id != "" && alias != "" && alias !in l.sessions[o].responses
    requires KeyOf(p) in w.infers && w.infers[KeyOf(p)].acked
    ensures Durable(l, o, IdentityChange(l.sessions[o], p.prompt, p.seqNo, id, alias), p,
                    Streaming(p.pc.remote, id), Ended(AcceptanceUnknown), w)
  {
    SideOpen(l, o, Some(p), w);
    var next := IdentityChange(l.sessions[o], p.prompt, p.seqNo, id, alias);
    if next.Ok? {
      IdentityCommitted(l.sessions[o], o, p, id, alias, w);
      CommittedSides(l, l.sessions[o], next.value, o, p, Streaming(p.pc.remote, id), Ended(AcceptanceUnknown), w);
    }
  }

  lemma CompleteDurable(l: Ledger, o: Owner, p: Proc, r: Summary, aliases: seq<string>, now: int, w: World)
    requires Ready(l, o, p, w) && p.pc.Streaming? && |aliases| == |r.calls|
    ensures Durable(l, o, CompleteChange(l.sessions[o], p.prompt, p.seqNo, r, aliases, now), p, Ended(Success), Ended(Failed), w)
  {
    SideOpen(l, o, Some(p), w);
    var next := CompleteChange(l.sessions[o], p.prompt, p.seqNo, r, aliases, now);
    if next.Ok? {
      CompletionCommitted(l.sessions[o], o, p, r, aliases, now, w);
      CommittedSides(l, l.sessions[o], next.value, o, p, Ended(Success), Ended(Failed), w);
    }
  }

  lemma ReadyNow(s: System, o: Owner)
    requires SystemInv(s) && o in s.procs && o in s.b.mem.sessions
    requires HasInvocation(s.b.mem.sessions[o], s.procs[o].prompt, s.procs[o].seqNo)
    ensures Ready(s.b.mem, o, s.procs[o], WorldOf(s, o))
  {
    assert OwnerInv(s, o);
    OwnerSides(s, o);
  }

  lemma SentKnown(l: Ledger, o: Owner, p: Proc, w: World)
    requires Ready(l, o, p, w) && p.pc.InferSent?
    ensures KeyOf(p) in w.infers
  {
    SideOpen(l, o, Some(p), w);
    SentKept(l.sessions[o], p, w);
  }

  /** Recording a response identity: first the world acknowledges, then the ledger does. */
  lemma IdentityKeeps(size: Ledger -> nat, s: System, o: Owner, id: string, alias: string, io: Io)
    requires SystemInv(s) && s.up && o in s.procs && s.procs[o].pc.InferSent? && id != "" && alias != ""
    requires o in s.b.mem.sessions && HasInvocation(s.b.mem.sessions[o], s.procs[o].prompt, s.procs[o].seqNo)
    requires alias !in s.b.mem.sessions[o].responses
    ensures var p := s.procs[o];
            Kept(s, ProcCommit(size, SetWorld(s, o, AckedInfer(WorldOf(s, o), KeyOf(p))), false, o,
                               IdentityChange(s.b.mem.sessions[o], p.prompt, p.seqNo, id, alias), io,
                               Streaming(p.pc.remote, id), Ended(AcceptanceUnknown)))
  {
    hide SystemInv, ProcessInv, LedgerInv, SideInv, HasInvocation, SessionAdvances, OwnerInv;
    var p := s.procs[o];
    var w1 := AckedInfer(WorldOf(s, o), KeyOf(p));
    var s1 := SetWorld(s, o, w1);
    ReadyNow(s, o);
    SentKnown(s.b.mem, o, p, WorldOf(s, o));
    ExchangeStep(s, o, p.pc, w1);
    assert SetPc(s1, o, p.pc) == s1;
    ReadyNow(s1, o);
    IdentityDurable(s.b.mem, o, p, id, alias, w1);
    CommitStep(size, s1, false, o, IdentityChange(s.b.mem.sessions[o], p.prompt, p.seqNo, id, alias), io,
               Streaming(p.pc.remote, id), Ended(AcceptanceUnknown));
  }
}
