/** Every event that is not a step of a request keeps the invariant. */
module BrokerEvents {
  import opened Wrappers
  import opened BrokerLedger
  import opened BrokerChanges
  import opened BrokerValidity
  import opened BrokerSystem
  import opened BrokerInvariant
  import opened BrokerSteps
  import opened BrokerCleanup
  import opened BrokerSafety
  import opened BrokerMoves

  // ---------------------------------------------------------------------------
  // Changes that leave the work of every owner alone
  // ---------------------------------------------------------------------------

  ghost predicate CalmRecord(l: Ledger, o: Owner, t: Session) {
    if o in l.sessions then CalmStep(l.sessions[o], t, o)
    else SessionSound(t, o) && SameWork(EmptySession(o), t)
  }

  ghost predicate CalmLedger(l: Ledger, m: Ledger) {
    && l.sessions.Keys <= m.sessions.Keys
    && (l.principal != "" ==> m.principal == l.principal)
    && forall o, t :: Record(m, o, t) ==> CalmRecord(l, o, t)
  }

  ghost predicate CalmOrSame(l: Ledger, m: Ledger) {
    m == l || CalmLedger(l, m)
  }

  lemma EmptyWorld(o: Owner, t: Session, w: World)
    requires SameWork(EmptySession(o), t) && w.creates == map[] && w.infers == map[]
    ensures SessionWorld(t, w)
  {
  }

  lemma CalmRecordInv(s: Session, t: Session, o: Owner, p: Option<Proc>, w: World)
    requires RecordInv(s, o, p, w) && CalmStep(s, t, o)
    ensures RecordInv(t, o, p, w)
  {
    SameWorkWorld(s, t, w);
    if p.Some? { SameWorkProc(s, t, p.value, w); }
  }

  lemma CalmSide(l: Ledger, m: Ledger, o: Owner, p: Option<Proc>, w: World)
    requires SideInv(l, o, p, w) && CalmLedger(l, m)
    ensures SideInv(m, o, p, w)
  {
    forall t | Record(m, o, t) ensures RecordInv(t, o, p, w) {
      assert CalmRecord(l, o, t);
      if o in l.sessions {
        SideOpen(l, o, p, w);
        CalmRecordInv(l.sessions[o], t, o, p, w);
      } else {
        EmptyWorld(o, t, w);
      }
    }
  }

  lemma CalmAt(l: Ledger, m: Ledger, o: Owner)
    requires CalmOrSame(l, m) && o in l.sessions
    ensures o in m.sessions
    ensures m.sessions[o] == l.sessions[o] || CalmStep(l.sessions[o], m.sessions[o], o)
    ensures m.sessions[o].createState == l.sessions[o].createState && m.sessions[o].remoteID == l.sessions[o].remoteID
  {
    if m != l {
      assert CalmRecord(l, o, m.sessions[o]) by { assert Record(m, o, m.sessions[o]); }
    }
  }

  lemma CalmAgree(s: System, t: System, o: Owner)
    requires SidesAgree(s.b.mem, s.b.disk, o) && CalmOrSame(s.b.mem, t.b.mem) && CalmOrSame(s.b.disk, t.b.disk)
    ensures SidesAgree(t.b.mem, t.b.disk, o)
  {
    CalmAt(s.b.mem, t.b.mem, o);
    CalmAt(s.b.disk, t.b.disk, o);
  }

  lemma CalmWorker(s: System, t: System, o: Owner)
    requires CalmOrSame(s.b.mem, t.b.mem) && o in s.b.mem.sessions && o in s.workers
    requires WorkerFacts(s.b.mem.sessions[o], s.workers[o], WorldOf(s, o))
    ensures o in t.b.mem.sessions && WorkerFacts(t.b.mem.sessions[o], s.workers[o], WorldOf(s, o))
  {
    CalmAt(s.b.mem, t.b.mem, o);
    if t.b.mem.sessions[o] != s.b.mem.sessions[o] {
      SameWorkWorker(s.b.mem.sessions[o], t.b.mem.sessions[o], s.workers[o], WorldOf(s, o));
    }
  }

  lemma CalmOwner(s: System, t: System, o: Owner)
    requires OwnerInv(s, o) && t == s.(b := t.b, up := t.up, now := t.now)
    requires CalmOrSame(s.b.mem, t.b.mem) && CalmOrSame(s.b.disk, t.b.disk)
    requires s.b.mem.principal != "" ==> t.b.mem.principal != ""
    ensures OwnerInv(t, o)
  {
    if t.b.mem != s.b.mem { CalmSide(s.b.mem, t.b.mem, o, ProcOf(s, o), WorldOf(s, o)); }
    if t.b.disk != s.b.disk { CalmSide(s.b.disk, t.b.disk, o, ProcOf(s, o), WorldOf(s, o)); }
    if o in s.workers { CalmWorker(s, t, o); }
    if o in s.procs && !s.procs[o].pc.Ended? { CalmAgree(s, t, o); }
  }

  lemma CalmForward(l: Ledger, m: Ledger)
    requires CalmLedger(l, m)
    ensures Forward(l, m)
  {
    forall o, s, t | Record(l, o, s) && Record(m, o, t) ensures SessionAdvances(s, t) {
      assert CalmRecord(l, o, t);
    }
  }

  lemma CalmKeeps(s: System, t: System)
    requires SystemInv(s) && t == s.(b := t.b, up := t.up, now := t.now) && t.now > 0
    requires CalmOrSame(s.b.mem, t.b.mem) && CalmOrSame(s.b.disk, t.b.disk)
    requires s.b.mem.principal != "" ==> t.b.mem.principal != ""
    requires ProcessInv(t) && LedgerInv(t.b.mem) && LedgerInv(t.b.disk)
    requires t.b.disk == s.b.disk || s.b.disk == s.b.mem
    requires t.b.mem == s.b.mem || t.b.mem == t.b.disk
    ensures Kept(s, t)
  {
    forall o ensures OwnerInv(t, o) {
      CalmOwner(s, t, o);
    }
    if t.b.disk != s.b.disk {
      CalmForward(s.b.disk, t.b.disk);
    }
  }

  /** A commit that, if made, leaves the work of every owner alone. */
  lemma CalmCommit(size: Ledger -> nat, s: System, ordinary: bool, next: Result<Ledger, Error>, io: Io, t: System)
    requires SystemInv(s) && s.up
    requires next.Ok? ==> CalmOrSame(s.b.mem, next.value) && LedgerInv(next.value)
    requires var b1 := Commit(size, s.b, ordinary, next, io).0;
             t == s.(b := b1.(cancelled := t.b.cancelled))
    requires next.Ok? && s.b.mem.principal != "" ==> next.value.principal != ""
    ensures Kept(s, t)
  {
    CommitOutcome(size, s.b, ordinary, next, io);
    CalmKeeps(s, t);
  }

  // ---------------------------------------------------------------------------
  // Ledgers with one owner changed, and with every owner changed
  // ---------------------------------------------------------------------------

  lemma EmptySound(o: Owner)
    ensures SessionSound(EmptySession(o), o)
  {
  }

  lemma CalmPut(l: Ledger, o: Owner, s: Session, t: Session)
    requires OwnersSound(l) && EnsureSession(l, o) == Ok(s) && CalmStep(s, t, o)
    ensures CalmLedger(l, PutSession(l, o, t))
  {
    var m := PutSession(l, o, t);
    forall x, u | Record(m, x, u) ensures CalmRecord(l, x, u) {
      if x != o {
        assert Record(l, x, u);
        CalmSelf(u, x);
      }
    }
  }

  ghost predicate OwnersSound(l: Ledger) {
    forall o, s :: Record(l, o, s) ==> SessionSound(s, o)
  }

  lemma LedgersSound(s: System)
    requires OwnersInv(s)
    ensures OwnersSound(s.b.mem) && OwnersSound(s.b.disk)
  {
    forall o, m | Record(s.b.mem, o, m) ensures SessionSound(m, o) {
      assert OwnerInv(s, o);
      SideOpen(s.b.mem, o, ProcOf(s, o), WorldOf(s, o));
    }
    forall o, m | Record(s.b.disk, o, m) ensures SessionSound(m, o) {
      assert OwnerInv(s, o);
      SideOpen(s.b.disk, o, ProcOf(s, o), WorldOf(s, o));
    }
  }

  lemma SessionRemote(l: Ledger, o: Owner, s: Session)
    requires LedgerInv(l) && EnsureSession(l, o) == Ok(s)
    ensures (s.remoteID != "" ==> l.principal != "") && (o in l.sessions || |l.sessions| < MAX_OWNERS)
  {
  }

  lemma PutCalm(l: Ledger, o: Owner, s: Session, t: Session)
    requires OwnersSound(l) && LedgerInv(l) && EnsureSession(l, o) == Ok(s) && CalmStep(s, t, o)
    ensures CalmLedger(l, PutSession(l, o, t)) && LedgerInv(PutSession(l, o, t))
  {
    CalmPut(l, o, s, t);
    SessionRemote(l, o, s);
    PutLedgerInv(l, o, t);
  }

  lemma SessionEnsuredSound(l: Ledger, o: Owner)
    requires OwnersSound(l) && EnsureSession(l, o).Ok?
    ensures SessionSound(EnsureSession(l, o).value, o)
  {
    if o in l.sessions {
      assert Record(l, o, l.sessions[o]);
    } else {
      EmptySound(o);
    }
  }

  lemma ControlCalmLedger(l: Ledger, path: Path, c: Context, now: int)
    requires OwnersSound(l) && LedgerInv(l) && !path.Responses? && Admissible(path, c)
    requires ControlNext(l, path, c, now).Ok?
    ensures CalmLedger(l, ControlNext(l, path, c, now).value) && LedgerInv(ControlNext(l, path, c, now).value)
  {
    var s := EnsureSession(l, c.owner).value;
    SessionEnsuredSound(l, c.owner);
    ControlCalm(s, path, c, now, c.owner);
    PutCalm(l, c.owner, s, ControlChange(s, path, c, now).value);
  }

  lemma ParsedAdmissible(path: Path, c: Context, at: int)
    requires ParsedContext(path, c, at)
    ensures Admissible(path, c)
  {
  }

  lemma ControlShape(size: Ledger -> nat, b: Broker, path: Path, c: Context, now: int, io: Io)
    ensures var b1 := Control(size, b, path, c, now, io).0;
            b1 == Commit(size, b, ControlOrdinary(b.mem, path, c), ControlNext(b.mem, path, c, now), io).0.(cancelled := b1.cancelled)
  {
  }

  lemma ControlPrincipal(l: Ledger, path: Path, c: Context, now: int)
    ensures ControlNext(l, path, c, now).Ok? ==> ControlNext(l, path, c, now).value.principal == l.principal
  {
  }

  lemma ControlKeeps(size: Ledger -> nat, s: System, path: Path, c: Context, io: Io)
    requires SystemInv(s) && s.up && !path.Responses? && Admissible(path, c)
    ensures Kept(s, s.(b := Control(size, s.b, path, c, s.now, io).0))
  {
    var next := ControlNext(s.b.mem, path, c, s.now);
    LedgersSound(s);
    if next.Ok? { ControlCalmLedger(s.b.mem, path, c, s.now); }
    ControlShape(size, s.b, path, c, s.now, io);
    ControlPrincipal(s.b.mem, path, c, s.now);
    CalmCommit(size, s, ControlOrdinary(s.b.mem, path, c), next, io, s.(b := Control(size, s.b, path, c, s.now, io).0));
  }

  lemma DisconnectCalmLedger(l: Ledger, o: Owner, k: PromptKey)
    requires OwnersSound(l) && LedgerInv(l)
    ensures CalmOrSame(l, Disconnect(l, o, k)) && LedgerInv(Disconnect(l, o, k))
  {
    if o in l.sessions {
      assert Record(l, o, l.sessions[o]);
      ClosePromptCalm(l.sessions[o], k, o);
      PutCalm(l, o, l.sessions[o], ClosePrompt(l.sessions[o], k));
    }
  }

  lemma DisconnectKeeps(size: Ledger -> nat, s: System, o: Owner, k: PromptKey, io: Io)
    requires SystemInv(s) && s.up && !s.b.stopped
    ensures Kept(s, s.(b := CloseOwnerPrompt(size, s.b, o, k, io)))
  {
    LedgersSound(s);
    DisconnectCalmLedger(s.b.mem, o, k);
    CalmCommit(size, s, false, Ok(Disconnect(s.b.mem, o, k)), io, s.(b := CloseOwnerPrompt(size, s.b, o, k, io)));
  }

  lemma PinKeeps(size: Ledger -> nat, s: System, digest: string, io: Io)
    requires SystemInv(s) && s.up && digest != ""
    ensures Kept(s, s.(b := PinPrincipal(size, s.b, digest, io).0))
  {
    var next := s.b.mem.(principal := digest);
    LedgersSound(s);
    forall o, u | Record(next, o, u) ensures CalmRecord(s.b.mem, o, u) {
      assert Record(s.b.mem, o, u);
      CalmSelf(u, o);
    }
    if s.b.mem.principal == "" && s.b.mem.principal != digest {
      CalmCommit(size, s, false, Ok(next), io, s.(b := PinPrincipal(size, s.b, digest, io).0));
    } else {
      CalmKeeps(s, s);
    }
  }

  lemma EveryCalm(l: Ledger, f: Session -> Session)
    requires LedgerInv(l)
    requires forall o, s :: Record(l, o, s) ==> CalmStep(s, f(s), o)
    ensures CalmLedger(l, ForSessions(l, f)) && LedgerInv(ForSessions(l, f))
  {
    var m := ForSessions(l, f);
    assert m.sessions.Keys == l.sessions.Keys;
    assert |m.sessions| == |m.sessions.Keys| == |l.sessions|;
    forall o, t | Record(m, o, t) ensures CalmRecord(l, o, t) && t.remoteID == l.sessions[o].remoteID {
      assert Record(l, o, l.sessions[o]);
    }
    forall o | o in m.sessions && m.sessions[o].remoteID != "" ensures m.principal != "" {
      assert Record(m, o, m.sessions[o]);
    }
  }

  lemma SweptCalm(l: Ledger, now: int)
    requires OwnersSound(l) && LedgerInv(l)
    ensures CalmLedger(l, Swept(l, now)) && LedgerInv(Swept(l, now)) && Swept(l, now).principal == l.principal
  {
    var f := (x: Session) => ExpirePrompts(x, now);
    forall o, u | Record(l, o, u) ensures CalmStep(u, f(u), o) {
      ExpireCalm(u, now, o);
    }
    EveryCalm(l, f);
    assert Swept(l, now) == ForSessions(l, f);
  }

  lemma SweepKeeps(size: Ledger -> nat, s: System, io: Io)
    requires SystemInv(s) && s.up && !s.b.stopped
    ensures Kept(s, s.(b := Sweep(size, s.b, s.now, io)))
  {
    LedgersSound(s);
    SweptCalm(s.b.mem, s.now);
    var t := s.(b := Sweep(size, s.b, s.now, io));
    if Expired(s.b.mem, s.now) {
      CalmCommit(size, s, false, Ok(Swept(s.b.mem, s.now)), io, t);
    } else {
      CalmKeeps(s, t);
    }
  }

  // ---------------------------------------------------------------------------
  // Crash, restart and shutdown
  // ---------------------------------------------------------------------------

  lemma CrashKeeps(s: System)
    requires SystemInv(s)
    ensures Kept(s, CrashStep(s))
  {
    var t := CrashStep(s);
    forall o ensures OwnerInv(t, o) {
      assert OwnerInv(s, o);
      SideIdle(s.b.disk, o, ProcOf(s, o), WorldOf(s, o));
    }
  }

  lemma RecoveredCalm(l: Ledger)
    requires OwnersSound(l) && LedgerInv(l)
    ensures CalmLedger(l, Recovered(l)) && LedgerInv(Recovered(l)) && Recovered(l).principal == l.principal
  {
    var f := (x: Session) => RecoverPrompts(x);
    forall o, u | Record(l, o, u) ensures CalmStep(u, f(u), o) {
      RecoverCalm(u, o);
    }
    EveryCalm(l, f);
    assert Recovered(l) == ForSessions(l, f);
  }

  lemma RestartShape(size: Ledger -> nat, s: System, io: Io)
    requires !s.up && s.b.mem == s.b.disk && s.b.active == map[] && s.b.poisoned && s.b.stopped
    ensures var t := RestartStep(size, s, io);
            && t == s.(b := t.b, up := t.up)
            && t.b.mem == t.b.disk && (t.b.disk == s.b.disk || t.b.disk == Recovered(s.b.disk))
            && t.b.active == map[] && (!t.up ==> t.b.poisoned && t.b.stopped) && (t.b.poisoned ==> t.b.stopped)
  {
    hide Recovered;
  }

  lemma DownProcess(s: System)
    requires ProcessInv(s) && !s.up
    ensures s.b.mem == s.b.disk && s.b.active == map[] && s.b.poisoned && s.b.stopped && s.procs == map[] && s.workers == map[]
  {
    assert s.b.active.Keys == {};
  }

  lemma RestartKeeps(size: Ledger -> nat, s: System, io: Io)
    requires SystemInv(s) && !s.up
    ensures Kept(s, RestartStep(size, s, io))
  {
    DownProcess(s);
    RestartShape(size, s, io);
    LedgersSound(s);
    RecoveredCalm(s.b.disk);
    RestartedKeeps(s, RestartStep(size, s, io));
  }

  lemma RestartedKeeps(s: System, t: System)
    requires SystemInv(s) && s.procs == map[] && s.workers == map[] && s.b.mem == s.b.disk
    requires t == s.(b := t.b, up := t.up) && t.b.mem == t.b.disk && CalmOrSame(s.b.disk, t.b.disk) && LedgerInv(t.b.disk)
    requires s.b.disk.principal == t.b.disk.principal
    requires t.b.active == map[] && (!t.up ==> t.b.poisoned && t.b.stopped) && (t.b.poisoned ==> t.b.stopped)
    ensures Kept(s, t)
  {
    CalmKeeps(s, t);
  }

  lemma ShutdownKeeps(s: System, t: System)
    requires SystemInv(s) && t == s.(b := s.b.(stopped := true, cancelled := t.b.cancelled))
    ensures Kept(s, t)
  {
    CalmKeeps(s, t);
  }

  // ---------------------------------------------------------------------------
  // Admission
  // ---------------------------------------------------------------------------

  /** Nothing is admitted where a cleanup worker is at work. */
  lemma AdmittedAlone(m: Session, o: Owner, k: Worker, c: Context, r: Request, normal: bool, now: int)
    requires SessionValid(m, o) && CapturedFacts(m, k)
    ensures ReserveChange(m, c, r, normal, now).Err?
  {
    if k.closing != {} {
      var e :| e in k.closing;
      UnsettledIsCurrent(m, o, e);
      BusyRefused(m, o, e, c, r, normal, now);
    }
  }

  lemma BusyRefused(m: Session, o: Owner, e: PromptKey, c: Context, r: Request, normal: bool, now: int)
    requires SessionValid(m, o) && e in m.prompts && m.prompts[e].closing && !m.prompts[e].settled && m.current == Some(e)
    ensures ReserveChange(m, c, r, normal, now).Err?
  {
    if ReserveChange(m, c, r, normal, now).Ok? {
      ReserveStages(m, c, r, normal, now);
      if c.prompt in m.prompts {
        UnsettledIsCurrent(m, o, c.prompt);
      }
    }
  }

  lemma ReserveSide(l: Ledger, o: Owner, c: Context, r: Request, normal: bool, now: int, w: World)
    requires SideInv(l, o, None, w) && LedgerInv(l) && c.owner == o && Admissible(Responses, c)
    requires ReserveNext(l, c, r, normal, now).Ok?
    ensures var m := ReserveNext(l, c, r, normal, now).value.0;
            && SideInv(m, o, Some(Proc(c.prompt, c.sequence, c.operationID, Started)), w)
            && SideInv(m, o, None, w) && LedgerInv(m) && Forward(l, m)
            && o in m.sessions && m == PutSession(l, o, m.sessions[o])
  {
    var s := EnsureSession(l, o).value;
    if o in l.sessions { SideOpen(l, o, None, w); } else { EmptySound(o); }
    ReserveStepSound(s, c, r, normal, now, o, w);
    var t := ReserveChange(s, c, r, normal, now).value.0;
    SideClose(PutSession(l, o, t), o, t, Some(Proc(c.prompt, c.sequence, c.operationID, Started)), w);
    SideIdle(PutSession(l, o, t), o, Some(Proc(c.prompt, c.sequence, c.operationID, Started)), w);
    PutForward(l, o, t);
    SessionRemote(l, o, s);
    ReserveRemote(s, c, r, normal, now);
    PutLedgerInv(l, o, t);
  }

  lemma ReserveRemote(s: Session, c: Context, r: Request, normal: bool, now: int)
    requires ReserveChange(s, c, r, normal, now).Ok?
    ensures ReserveChange(s, c, r, normal, now).value.0.remoteID == s.remoteID
  {
  }

  lemma NoWorker(s: System, c: Context, r: Request, normal: bool, now: int)
    requires OwnerInv(s, c.owner) && ReserveNext(s.b.mem, c, r, normal, now).Ok?
    ensures c.owner !in s.workers
  {
    if c.owner in s.workers {
      SideOpen(s.b.mem, c.owner, ProcOf(s, c.owner), WorldOf(s, c.owner));
      AdmittedAlone(s.b.mem.sessions[c.owner], c.owner, s.workers[c.owner], c, r, normal, now);
    }
  }

  lemma ReserveShape(size: Ledger -> nat, s: System, c: Context, r: Request, normal: bool, io: Io)
    ensures var t := ReserveStep(size, s, c, r, normal, io);
            var (b1, result) := Reserve(size, s.b, c, r, normal, s.now, io);
            && t == s.(b := b1, procs := t.procs, worlds := t.worlds)
            && t.procs == (if result.Ok? then s.procs[c.owner := Proc(c.prompt, c.sequence, c.operationID, Started)] else s.procs)
            && WorldOf(t, c.owner) == WorldOf(s, c.owner).(continued := WorldOf(t, c.owner).continued)
            && (forall x :: x != c.owner ==> WorldOf(t, x) == WorldOf(s, x))
            && (b1.disk == s.b.disk ==> t.worlds == s.worlds)
  {
    hide ReserveNext, Reserve;
  }

  lemma ReserveBrokerShape(size: Ledger -> nat, b: Broker, c: Context, r: Request, normal: bool, now: int, io: Io)
    ensures var (b1, result) := Reserve(size, b, c, r, normal, now, io);
            var next := ReserveNext(b.mem, c, r, normal, now);
            if b.poisoned || b.stopped || c.owner in b.active || next.Err? then b1 == b && result.Err?
            else
              || (result.Ok? && b1 == b.(mem := next.value.0, disk := next.value.0, active := b.active[c.owner := c.prompt],
                                         cancelled := b1.cancelled))
              || (result.Err? && b1.mem == b.mem && b1.active == b.active
                  && (b1 == b || (b1.poisoned && b1.stopped && (b1.disk == b.disk || b1.disk == next.value.0))))
  {
  }

  ghost predicate ReserveOutcome(s: System, t: System, c: Context, l: Ledger) {
    var p := Proc(c.prompt, c.sequence, c.operationID, Started);
    || (t.procs == s.procs[c.owner := p] && t.b.mem == l && t.b.disk == l && t.b.active == s.b.active[c.owner := c.prompt]
        && t.b.poisoned == s.b.poisoned)
    || (t.procs == s.procs && t.b.mem == s.b.mem && t.b.active == s.b.active
        && ((t.b.disk == s.b.disk && t.b.poisoned == s.b.poisoned && t.b.stopped == s.b.stopped)
            || (t.b.poisoned && t.b.stopped && (t.b.disk == s.b.disk || t.b.disk == l))))
  }

  lemma ReserveKeeps(size: Ledger -> nat, s: System, c: Context, r: Request, normal: bool, io: Io)
    requires SystemInv(s) && s.up && Admissible(Responses, c)
    ensures Kept(s, ReserveStep(size, s, c, r, normal, io))
  {
    var t := ReserveStep(size, s, c, r, normal, io);
    var next := ReserveNext(s.b.mem, c, r, normal, s.now);
    ReserveShape(size, s, c, r, normal, io);
    ReserveBrokerShape(size, s.b, c, r, normal, s.now, io);
    if s.b.poisoned || s.b.stopped || c.owner in s.b.active || next.Err? {
      RefusedReserve(s, t);
    } else {
      assert OwnerInv(s, c.owner);
      NoWorker(s, c, r, normal, s.now);
      ReserveSide(s.b.mem, c.owner, c, r, normal, s.now, WorldOf(s, c.owner));
      ReservedKeeps(s, t, c, next.value.0);
    }
  }

  lemma ReservedKeeps(s: System, t: System, c: Context, l: Ledger)
    requires SystemInv(s) && s.up && !s.b.poisoned && ReserveOutcome(s, t, c, l) && t.up && t.now == s.now
    requires t.workers == s.workers && c.owner !in s.workers && c.owner !in s.procs
    requires WorldOf(t, c.owner) == WorldOf(s, c.owner).(continued := WorldOf(t, c.owner).continued)
    requires forall x :: x != c.owner ==> WorldOf(t, x) == WorldOf(s, x)
    requires SideInv(l, c.owner, Some(Proc(c.prompt, c.sequence, c.operationID, Started)), WorldOf(s, c.owner))
    requires SideInv(l, c.owner, None, WorldOf(s, c.owner)) && LedgerInv(l) && Forward(s.b.mem, l)
    requires c.owner in l.sessions && l == PutSession(s.b.mem, c.owner, l.sessions[c.owner])
    ensures Kept(s, t)
  {
    hide LedgerInv, RecordInv;
    var o := c.owner;
    assert OwnerInv(s, o);
    ReservedOwner(s, t, o, l, Proc(c.prompt, c.sequence, c.operationID, Started));
    ReservedElsewhere(s, t, o, l);
    AllOwners(s, t, o);
  }

  lemma RefusedReserve(s: System, t: System)
    requires SystemInv(s) && t == s
    ensures Kept(s, t)
  {
    AllOwnersSame(s, t);
  }

  lemma ReservedOwner(s: System, t: System, o: Owner, l: Ledger, p: Proc)
    requires OwnerInv(s, o) && o !in s.procs && o !in s.workers && t.workers == s.workers && p.pc.Started?
    requires WorldOf(t, o) == WorldOf(s, o).(continued := WorldOf(t, o).continued)
    requires SideInv(l, o, Some(p), WorldOf(s, o)) && SideInv(l, o, None, WorldOf(s, o)) && o in l.sessions
    requires || (ProcOf(t, o) == Some(p) && t.b.mem == l && t.b.disk == l)
             || (o !in t.procs && t.b.mem == s.b.mem && (t.b.disk == s.b.disk || t.b.disk == l))
    ensures OwnerInv(t, o)
  {
    var w, v := WorldOf(s, o), WorldOf(t, o);
    SideFrame(l, l, o, Some(p), w, v);
    SideFrame(l, l, o, None, w, v);
    SideFrame(s.b.mem, s.b.mem, o, None, w, v);
    SideFrame(s.b.disk, s.b.disk, o, None, w, v);
  }

  lemma ReservedElsewhere(s: System, t: System, o: Owner, l: Ledger)
    requires o in l.sessions && l == PutSession(s.b.mem, o, l.sessions[o]) && s.b.disk == s.b.mem && t.workers == s.workers
    requires t.b.mem == s.b.mem || t.b.mem == l
    requires t.b.disk == s.b.disk || t.b.disk == l
    requires forall x :: x != o ==> ProcOf(t, x) == ProcOf(s, x) && WorldOf(t, x) == WorldOf(s, x)
    ensures forall x :: x != o ==> SameOwner(s, t, x)
  {
  }

  // ---------------------------------------------------------------------------
  // Cleanup
  // ---------------------------------------------------------------------------

  lemma CapturedOwner(s: System, o: Owner)
    requires OwnerInv(s, o) && s.procs.Keys == s.b.active.Keys && CaptureStep(s, o) != s
    ensures OwnerInv(CaptureStep(s, o), o)
  {
    CaptureHolds(s.b.mem.sessions[o], WorldOf(s, o));
  }

  lemma CaptureKeeps(s: System, o: Owner)
    requires SystemInv(s) && s.up
    ensures Kept(s, CaptureStep(s, o))
  {
    hide LedgerInv, ClosingQuiet, Capture, SessionSound;
    var t := CaptureStep(s, o);
    if t != s {
      assert OwnerInv(s, o);
      CapturedOwner(s, o);
      AllOwners(s, t, o);
    }
  }

  lemma SideSeen(l: Ledger, o: Owner, w: World, m: Session, active: bool, gone: set<string>)
    requires SideInv(l, o, None, w) && (gone == {} || exists r :: gone == {r})
    ensures var v := Quieted(w, m, active); SideInv(l, o, None, v.(gone := v.gone + gone))
  {
    hide SessionShapeValid, SessionSound, NonRetireOperations, SessionWorld;
    var v := Quieted(w, m, active);
    var v1 := v.(gone := v.gone + gone);
    forall s | Record(l, o, s) ensures RecordInv(s, o, None, v1) {
      QuietedWorld(s, m, w, active);
      if gone != {} {
        var r :| gone == {r};
        GoneWorld(s, v, r);
      } else {
        assert v1 == v;
      }
    }
    if o !in l.sessions { assert v1.infers == map[]; }
  }

  lemma DropKeeps(s: System, o: Owner)
    requires SystemInv(s) && s.up && o in s.workers
    ensures Kept(s, DropWorker(s, o))
  {
    AllOwnersSame(s, DropWorker(s, o));
  }

  /** The owner of a cleanup worker after the worker has moved on. */
  lemma StageOwner(s: System, t: System, o: Owner)
    requires OwnerInv(s, o) && o in s.workers && o in t.workers
    requires t == s.(worlds := t.worlds, workers := t.workers)
    requires SideInv(s.b.mem, o, None, WorldOf(t, o)) && SideInv(s.b.disk, o, None, WorldOf(t, o))
    requires o in s.b.mem.sessions && WorkerFacts(s.b.mem.sessions[o], t.workers[o], WorldOf(t, o))
    ensures OwnerInv(t, o)
  {
  }

  lemma StageKeeps(s: System, t: System, o: Owner)
    requires SystemInv(s) && s.up && o in s.workers && t == s.(worlds := t.worlds, workers := t.workers)
    requires forall x :: x != o ==> WorldOf(t, x) == WorldOf(s, x) && (x in t.workers ==> x in s.workers && t.workers[x] == s.workers[x])
    requires OwnerInv(t, o)
    ensures Kept(s, t)
  {
    AllOwners(s, t, o);
  }

  lemma WorkerNow(s: System, o: Owner)
    requires OwnerInv(s, o) && o in s.workers
    ensures o in s.b.mem.sessions && o !in s.procs && ProcOf(s, o) == None
    ensures WorkerFacts(s.b.mem.sessions[o], s.workers[o], WorldOf(s, o))
    ensures SideInv(s.b.mem, o, None, WorldOf(s, o)) && SideInv(s.b.disk, o, None, WorldOf(s, o))
  {
  }

  lemma DeletingFacts(m: Session, k: Worker, w: World)
    requires WorkerFacts(m, k, w) && MayDelete(k)
    ensures WorkerFacts(m, k.(stage := Deleting), w)
  {
  }

  lemma DeletedFacts(m: Session, k: Worker, w: World)
    requires WorkerFacts(m, k, w) && k.stage.Deleting?
    ensures var v := Quieted(w, m, false); WorkerFacts(m, k.(stage := Evidence(DeletedGone)), v.(gone := w.gone + {k.remote}))
  {
    CapturedQuiet(m, k, w);
  }

  lemma StoppedFacts(m: Session, k: Worker, w: World)
    requires WorkerFacts(m, k, w) && k.stage.Captured? && MustStop(k)
    ensures !k.ambiguous ==> WorkerFacts(m, k.(stage := Evidence(StopIdle)), Quieted(w, m, false))
  {
    CapturedQuiet(m, k, w);
  }

  lemma RestingFacts(m: Session, k: Worker, w: World)
    requires WorkerFacts(m, k, w) && k.stage.Captured? && !MayDelete(k) && !MustStop(k) && !k.ambiguous
    ensures WorkerFacts(m, k.(stage := Evidence(if RestsQuiet(k) then Quiescent else NeverCreated)), w)
  {
  }

  lemma DeleteSentKeeps(s: System, o: Owner)
    requires SystemInv(s) && s.up && o in s.workers && MayDelete(s.workers[o])
    ensures Kept(s, SetStage(s, o, Deleting))
  {
    assert OwnerInv(s, o);
    WorkerNow(s, o);
    DeletingFacts(s.b.mem.sessions[o], s.workers[o], WorldOf(s, o));
    StageOwner(s, SetStage(s, o, Deleting), o);
    StageKeeps(s, SetStage(s, o, Deleting), o);
  }

  lemma RestingKeeps(s: System, o: Owner, kind: Kind)
    requires SystemInv(s) && s.up && o in s.workers && s.workers[o].stage.Captured?
    requires !MayDelete(s.workers[o]) && !MustStop(s.workers[o]) && !s.workers[o].ambiguous
    requires kind == if RestsQuiet(s.workers[o]) then Quiescent else NeverCreated
    ensures Kept(s, SetStage(s, o, Evidence(kind)))
  {
    hide RecordInv, WorkerFacts, SessionSound, LedgerInv, Record, StageFacts, CapturedFacts, ProcFacts, SessionAdvances;
    assert OwnerInv(s, o);
    WorkerNow(s, o);
    RestingFacts(s.b.mem.sessions[o], s.workers[o], WorldOf(s, o));
    StageOwner(s, SetStage(s, o, Evidence(kind)), o);
    StageKeeps(s, SetStage(s, o, Evidence(kind)), o);
  }

  lemma DeleteConfirmedKeeps(s: System, o: Owner, v: World)
    requires SystemInv(s) && s.up && o in s.workers && o in s.b.mem.sessions && s.workers[o].stage.Deleting?
    requires v == Quieted(WorldOf(s, o), s.b.mem.sessions[o], false).(gone := WorldOf(s, o).gone + {s.workers[o].remote})
    ensures Kept(s, SetStage(SetWorld(s, o, v), o, Evidence(DeletedGone)))
  {
    var t := SetStage(SetWorld(s, o, v), o, Evidence(DeletedGone));
    assert OwnerInv(s, o);
    WorkerNow(s, o);
    DeletedFacts(s.b.mem.sessions[o], s.workers[o], WorldOf(s, o));
    SideSeen(s.b.mem, o, WorldOf(s, o), s.b.mem.sessions[o], false, {s.workers[o].remote});
    SideSeen(s.b.disk, o, WorldOf(s, o), s.b.mem.sessions[o], false, {s.workers[o].remote});
    StageOwner(s, t, o);
    StageKeeps(s, t, o);
  }

  lemma StopConfirmedKeeps(s: System, o: Owner, v: World)
    requires SystemInv(s) && s.up && o in s.workers && o in s.b.mem.sessions
    requires s.workers[o].stage.Captured? && MustStop(s.workers[o])
    requires v == Quieted(WorldOf(s, o), s.b.mem.sessions[o], false)
    ensures if s.workers[o].ambiguous then Kept(s, DropWorker(SetWorld(s, o, v), o))
            else Kept(s, SetStage(SetWorld(s, o, v), o, Evidence(StopIdle)))
  {
    hide WorkerFacts, SideInv, Quieted, LedgerInv, SessionSound, PcFacts, CapturedFacts;
    assert OwnerInv(s, o);
    WorkerNow(s, o);
    StoppedFacts(s.b.mem.sessions[o], s.workers[o], WorldOf(s, o));
    assert v.gone + {} == v.gone;
    assert v.(gone := v.gone + {}) == v;
    SideSeen(s.b.mem, o, WorldOf(s, o), s.b.mem.sessions[o], false, {});
    SideSeen(s.b.disk, o, WorldOf(s, o), s.b.mem.sessions[o], false, {});
    if s.workers[o].ambiguous {
      var t := DropWorker(SetWorld(s, o, v), o);
      assert OwnerInv(t, o);
      StageKeeps(s, t, o);
    } else {
      var t := SetStage(SetWorld(s, o, v), o, Evidence(StopIdle));
      StageOwner(s, t, o);
      StageKeeps(s, t, o);
    }
  }

  lemma CleanupRemote(m: Session, closing: set<PromptKey>, retiring: bool, created: bool, kind: Kind, remote: string, at: int)
    requires CleanupChange(m, closing, retiring, created, kind, remote, at).Ok?
    ensures CleanupChange(m, closing, retiring, created, kind, remote, at).value.remoteID == m.remoteID
  {
  }

  lemma CleanupSides(size: Ledger -> nat, s: System, o: Owner, next: Result<Session, Error>, io: Io)
    requires SystemInv(s) && s.up && o in s.workers && o in s.b.mem.sessions && s.workers[o].stage.Evidence?
    requires var k := s.workers[o];
             next == Err(Pending)
             || next == CleanupChange(s.b.mem.sessions[o], k.closing, k.retiring, k.createState.Known?, k.stage.kind, k.remote, s.now)
    ensures var b1 := CommitSession(size, s.b, false, o, next, io).0;
            && SideInv(b1.mem, o, None, WorldOf(s, o)) && SideInv(b1.disk, o, None, WorldOf(s, o))
            && LedgerInv(b1.mem) && LedgerInv(b1.disk) && Onward(s.b, b1)
  {
    var k, m := s.workers[o], s.b.mem.sessions[o];
    assert OwnerInv(s, o);
    WorkerNow(s, o);
    SideOpen(s.b.mem, o, None, WorldOf(s, o));
    if next.Ok? {
      CleanupCommitted(m, o, k, WorldOf(s, o), s.now);
      CleanupRemote(m, k.closing, k.retiring, k.createState.Known?, k.stage.kind, k.remote, s.now);
      PutForward(s.b.mem, o, next.value);
    }
    WorkedSides(size, s.b, false, o, next, io, WorldOf(s, o));
    CommitLedgers(size, s.b, false, o, next, io);
    CommitOnward(size, s.b, false, OnSession(s.b.mem, o, next), io);
  }

  lemma CleanupKeeps(size: Ledger -> nat, s: System, o: Owner, next: Result<Session, Error>, io: Io)
    requires SystemInv(s) && s.up && o in s.workers && o in s.b.mem.sessions && s.workers[o].stage.Evidence?
    requires var k := s.workers[o];
             next == Err(Pending)
             || next == CleanupChange(s.b.mem.sessions[o], k.closing, k.retiring, k.createState.Known?, k.stage.kind, k.remote, s.now)
    ensures Kept(s, DropWorker(s.(b := CommitSession(size, s.b, false, o, next, io).0), o))
  {
    hide WorkerFacts, SideInv, RecordInv, SessionSound, LedgerInv, Forward, SessionValid, SessionAdvances, SessionStrong, CleanupChange;
    var b1 := CommitSession(size, s.b, false, o, next, io).0;
    var t := DropWorker(s.(b := b1), o);
    CleanupSides(size, s, o, next, io);
    LedgersElsewhere(size, s.b, false, o, next, io);
    assert OwnerInv(s, o);
    WorkerNow(s, o);
    assert OwnerInv(t, o);
    AllOwners(s, t, o);
  }

  lemma WorkerStepKeeps(size: Ledger -> nat, s: System, o: Owner, e: WorkerEvent)
    requires SystemInv(s) && s.up && o in s.workers && o in s.b.mem.sessions
    ensures Kept(s, WorkerStep(size, s, o, e))
  {
    hide LedgerInv, RecordInv, SessionSound, Forward, WorkerFacts, ProcFacts, SideInv, WorldOf, SettleInvocations, SettlePrompts;
    var k, m, w := s.workers[o], s.b.mem.sessions[o], WorldOf(s, o);
    assert OwnerInv(s, o);
    assert o !in s.b.active;
    match e
    case DeleteSent => if k.stage.Captured? && MayDelete(k) { DeleteSentKeeps(s, o); }
    case DeleteConfirmed =>
      if k.stage.Deleting? { DeleteConfirmedKeeps(s, o, Quieted(w, m, false).(gone := w.gone + {k.remote})); }
    case StopConfirmed => if k.stage.Captured? && MustStop(k) { StopConfirmedKeeps(s, o, Quieted(w, m, false)); }
    case NothingToStop =>
      if k.stage.Captured? && !MayDelete(k) && !MustStop(k) {
        if k.ambiguous { DropKeeps(s, o); } else { RestingKeeps(s, o, if RestsQuiet(k) then Quiescent else NeverCreated); }
      }
    case AbandonCleanup => DropKeeps(s, o);
    case CommitCleanup(io) =>
      if k.stage.Evidence? {
        CleanupKeeps(size, s, o, CleanupChange(m, k.closing, k.retiring, k.createState.Known?, k.stage.kind, k.remote, s.now), io);
      }
  }
}
