/**
 Tool results are used once in every run. The end of a request can be refused for lack of space
 only when the ledger is nearly full, and then no ordinary change, and so no further admission,
 fits until the broker is started again and closes the prompt.
 */
module BrokerLinearity {
  import opened Wrappers
  import opened Text
  import opened Sums
  import opened BrokerLedger
  import opened BrokerChanges
  import opened BrokerValidity
  import opened BrokerAcceptance
  import opened BrokerSystem
  import opened BrokerInvariant
  import opened BrokerSteps
  import opened BrokerRequests
  import opened BrokerCleanup
  import opened BrokerSafety
  import opened BrokerMoves
  import opened BrokerEvents
  import opened BrokerRuns
  import opened BrokerTheorems
  import opened BrokerWrites
  import opened BrokerAuthority
  import opened BrokerContinuation
  import opened BrokerReopening
  import opened BrokerBytes
  import opened BrokerCapacity
  import opened BrokerMarks

  // ---------------------------------------------------------------------------
  // What changes keep of a record
  // ---------------------------------------------------------------------------

  ghost predicate SameParts(s: Session, t: Session) {
    t.responses == s.responses && t.createState == s.createState && t.remoteID == s.remoteID
  }

  lemma SameKeeps(s: Session, t: Session)
    requires SameParts(s, t)
    ensures KeepsParts(s, t, None)
  {
  }

  lemma RecordParts(s: Session, path: Path, c: Context)
    requires RecordOperation(s, path, c).Ok?
    ensures SameParts(s, RecordOperation(s, path, c).value.0)
  {
  }

  lemma EnsureParts(s: Session, c: Context)
    requires EnsurePrompt(s, c).Ok?
    ensures SameParts(s, EnsurePrompt(s, c).value)
  {
  }

  lemma ControlParts(s: Session, path: Path, c: Context, now: int)
    requires !path.Responses? && ControlChange(s, path, c, now).Ok?
    ensures SameParts(s, ControlChange(s, path, c, now).value)
  {
    hide RecordOperation, EnsurePrompt, RenewChange, RenewLease;
    if path.Renew? { RenewStages(s, c, now); }
    var (s1, _) := RecordOperation(s, path, c).value;
    RecordParts(s, path, c);
    if !path.Retire? { EnsureParts(s1, c); }
  }

  lemma ReserveParts(s: Session, c: Context, r: Request, normal: bool, now: int)
    requires ReserveChange(s, c, r, normal, now).Ok?
    ensures SameParts(s, ReserveChange(s, c, r, normal, now).value.0)
  {
    ReserveStages(s, c, r, normal, now);
  }

  lemma CleanupParts(m: Session, k: Worker, at: int)
    requires k.stage.Evidence?
    requires CleanupChange(m, k.closing, k.retiring, k.createState.Known?, k.stage.kind, k.remote, at).Ok?
    ensures KeepsParts(m, CleanupChange(m, k.closing, k.retiring, k.createState.Known?, k.stage.kind, k.remote, at).value, None)
  {
    CleanupStages(m, k.closing, k.retiring, k.createState.Known?, k.stage.kind, k.remote, at);
  }

  lemma ProcParts(s: System, o: Owner, e: ProcEvent)
    requires SystemInv(s) && CanStep(s, o) && !e.Complete? && ProcNext(s, o, e).Some? && ProcNext(s, o, e).value.Ok?
    ensures KeepsParts(s.b.mem.sessions[o], ProcNext(s, o, e).value.value, None)
  {
    hide SessionSound, SessionWorld, IdentifierValid, AliasValid, SystemInv, LedgerInv, WorkerFacts, PromptValid;
    RecordNow(s, o, s.b.mem.sessions[o]);
  }

  ghost predicate PartsKept(l: Ledger, m: Ledger) {
    forall o, n :: Record(m, o, n) ==> KeepsParts(Before(l, o), n, None)
  }

  lemma PutParts(l: Ledger, o: Owner, t: Session)
    requires KeepsParts(Before(l, o), t, None)
    ensures PartsKept(l, PutSession(l, o, t))
  {
  }

  lemma ClosingParts(s: System, e: Event, l: Ledger)
    requires Writes(s, e, l) && (e.Restart? || e.Sweeping? || e.Disconnected? || e.Pinning?)
    ensures PartsKept(s.b.mem, l)
  {
    hide DigestValid, ParsedContext;
    forall o, n | Record(l, o, n) ensures SameParts(Before(s.b.mem, o), n) {
    }
  }

  lemma WritesParts(s: System, e: Event, l: Ledger)
    requires SystemInv(s) && Writes(s, e, l) && !(e.ProcMoves? && e.step.Complete?)
    ensures PartsKept(s.b.mem, l)
  {
    hide SystemInv, PartsKept, KeepsParts, ControlChange, ReserveChange, ParsedContext;
    match e
    case Controlled(path, c, _, _) =>
      var m := EnsureSession(s.b.mem, c.owner).value;
      ControlParts(m, path, c, s.now);
      SameKeeps(m, ControlChange(m, path, c, s.now).value);
      PutParts(s.b.mem, c.owner, ControlChange(m, path, c, s.now).value);
    case Reserving(c, r, normal, _, _) =>
      var m := EnsureSession(s.b.mem, c.owner).value;
      ReserveParts(m, c, r, normal, s.now);
      SameKeeps(m, ReserveChange(m, c, r, normal, s.now).value.0);
      PutParts(s.b.mem, c.owner, ReserveChange(m, c, r, normal, s.now).value.0);
    case ProcMoves(o, step) =>
      ProcParts(s, o, step);
      PutParts(s.b.mem, o, ProcNext(s, o, step).value.value);
    case WorkerMoves(o, move) =>
      CleanupParts(s.b.mem.sessions[o], s.workers[o], s.now);
      PutParts(s.b.mem, o, WorkerNext(s, o, move).value.value);
    case _ => ClosingParts(s, e, l);
  }

  // ---------------------------------------------------------------------------
  // What one written change does to the mark
  // ---------------------------------------------------------------------------

  ghost predicate TimesBounded(e: Encoding) {
    forall t :: e.time(t) <= TIME_BYTES
  }

  /** What is known of an owner's record on both sides of a written change. */
  ghost predicate Sides(m: Session, n: Session, o: Owner) {
    && SessionValid(m, o) && SessionValid(n, o) && SessionTexts(m) && SessionTexts(n) && SessionAdvances(m, n)
  }

  lemma SidesKnown(s: System, t: System, o: Owner)
    requires SystemInv(s) && SystemInv(t) && TextsLedger(s.b.disk) && TextsLedger(t.b.disk) && Forward(s.b.disk, t.b.disk)
    requires o in s.b.disk.sessions
    ensures o in t.b.disk.sessions && Sides(s.b.disk.sessions[o], t.b.disk.sessions[o], o)
  {
    var m, n := s.b.disk.sessions[o], t.b.disk.sessions[o];
    assert Record(s.b.disk, o, m) && Record(t.b.disk, o, n);
    RecordNow(s, o, m);
    RecordNow(t, o, n);
  }

  function Shrink(v: Event): nat {
    if v.Controlled? && v.path.Renew? then TIME_BYTES else 0
  }

  function OwnerOf(v: Event): Option<Owner> {
    match v
    case Controlled(_, c, _, _) => Some(c.owner)
    case ProcMoves(o, _) => Some(o)
    case _ => None
  }

  /** One record, when no response completes. */
  lemma RecordGrows(e: Encoding, s: System, v: Event, m: Session, n: Session, o: Owner)
    requires TimesBounded(e) && Sides(m, n, o) && KeepsParts(m, n, None) && LeasesAuthorized(s, v, o, m, n)
    ensures SessionMark(e, m) <= SessionMark(e, n) + (if OwnerOf(v) == Some(o) then Shrink(v) else 0)
  {
    hide SessionMark, KeepsParts, SessionValid, SessionTexts;
    if v.Controlled? && v.context.owner == o {
      forall j | j in m.prompts
        ensures e.time(m.prompts[j].leaseExpires) <= e.time(n.prompts[j].leaseExpires) + (if j == v.context.prompt then Shrink(v) else 0)
      {
        assert PromptAdvances(m.prompts[j], n.prompts[j]);
      }
      SessionGrows(e, m, n, o, v.context.prompt, Shrink(v), None);
    } else {
      forall j | j in m.prompts ensures e.time(m.prompts[j].leaseExpires) <= e.time(n.prompts[j].leaseExpires) {
        assert PromptAdvances(m.prompts[j], n.prompts[j]);
      }
      if j :| j in m.prompts { SessionGrows(e, m, n, o, j, 0, None); } else { EmptyGrows(e, m, n, o); }
    }
  }

  lemma EmptyGrows(e: Encoding, m: Session, n: Session, o: Owner)
    requires Sides(m, n, o) && KeepsParts(m, n, None) && m.prompts == map[]
    ensures SessionMark(e, m) <= SessionMark(e, n)
  {
    hide SessionMark, KeepsParts, SessionValid, SessionTexts;
    SessionGrows(e, m, n, o, PromptKey("", 0, "", ""), 0, None);
  }

  lemma LinkCompletes(m: Session, o: Owner, k: PromptKey, q: nat, link: Link)
    requires SessionValid(m, o) && HasInvocation(m, k, q) && m.prompts[k].invocations[q].state.Accepted?
    requires Completes(m.responses[m.prompts[k].invocations[q].alias], link)
    ensures var a := m.prompts[k].invocations[q].alias;
            a in m.responses && LinkBytes(a, m.responses[a]) <= LinkBytes(a, link) + 2
  {
    AcceptedFacts(m, o, k, q);
    var a := m.prompts[k].invocations[q].alias;
    assert m.responses[a].callIDs == map[];
  }

  /** One record, when a response completes. */
  lemma CompletionGrows(e: Encoding, m: Session, n: Session, o: Owner, k: PromptKey, q: nat, link: Link)
    requires Sides(m, n, o) && HasInvocation(m, k, q) && m.prompts[k].invocations[q].state.Accepted?
    requires m.prompts[k].invocations[q].alias in m.responses
    requires Completes(m.responses[m.prompts[k].invocations[q].alias], link) && n == CompletedSession(m, k, q, link)
    ensures SessionMark(e, m) <= SessionMark(e, n) + 2
  {
    hide SessionMark, LinkBytes, SessionValid, SessionTexts;
    var a := m.prompts[k].invocations[q].alias;
    LinkCompletes(m, o, k, q, link);
    SessionGrows(e, m, n, o, k, 0, Some(a));
  }

  lemma WrittenCompletion(e: Encoding, s: System, o: Owner, step: ProcEvent, n: Session)
    requires SystemInv(s) && CanStep(s, o) && step.Complete? && Sides(s.b.mem.sessions[o], n, o)
    requires ProcNext(s, o, step).Some? && ProcNext(s, o, step).value == Ok(n)
    ensures SessionMark(e, s.b.mem.sessions[o]) <= SessionMark(e, n) + 2
  {
    hide SessionMark, Sides, SystemInv, SessionSound, SessionWorld, CompleteChange, CompletedSession, Injective, CallMap;
    var p, m := s.procs[o], s.b.mem.sessions[o];
    RecordNow(s, o, m);
    CompleteStages(m, p.prompt, p.seqNo, step.summary, step.newAliases, s.now);
    var calls := CallMap(step.summary.calls, step.newAliases);
    var alias := m.prompts[p.prompt].invocations[p.seqNo].alias;
    var link := m.responses[alias].(completed := true, hasFunctions := |calls| != 0, callIDs := calls);
    CompletionEffect(m, p, link, WorldOf(s, o));
    CompletionGrows(e, m, n, o, p.prompt, p.seqNo, link);
  }

  /** Everything known of an event that changed the disk. */
  ghost predicate Landed(e: Encoding, s: System, v: Event, t: System) {
    && RunInv(s) && RunInv(t) && s.b.mem == s.b.disk && TextsLedger(s.b.disk) && TextsLedger(t.b.disk)
    && Forward(s.b.disk, t.b.disk) && t.b.disk.configDigest == s.b.disk.configDigest
    && Written(SizeOf(e), s, v, t.b.disk) && EventAuthorized(s, v, t.b.disk)
  }

  lemma Lands(e: Encoding, s: System, v: Event)
    requires RunInv(s) && TextsLedger(s.b.mem) && TextsLedger(s.b.disk) && ProcsPrepared(s)
    requires Apply(SizeOf(e), s, v).b.disk != s.b.disk
    ensures Landed(e, s, v, Apply(SizeOf(e), s, v))
  {
    hide Apply, Writes, EventAuthorized, TextsLedger, ProcsPrepared;
    var t := Apply(SizeOf(e), s, v);
    ApplyKeeps(SizeOf(e), s, v);
    StepForward(s.b, t.b);
    TextsKept(SizeOf(e), s, v);
    DiskWritten(SizeOf(e), s, v);
    WritesConfig(s, v, t.b.disk);
    AuthorityKept(SizeOf(e), s, v);
  }

  /** A change that completes no response keeps the mark, but for the length of one lease in a renewal. */
  lemma OtherGrows(e: Encoding, s: System, v: Event, t: System)
    requires TimesBounded(e) && Landed(e, s, v, t) && !(v.ProcMoves? && v.step.Complete?)
    ensures LedgerMark(e, s.b.disk) <= LedgerMark(e, t.b.disk) + Shrink(v)
  {
    hide SessionMark, LedgerMark, Writes, Sides, KeepsParts, LeasesAuthorized, IntentsAuthorized, SystemInv;
    WritesParts(s, v, t.b.disk);
    var who := match OwnerOf(v) case Some(o) => o case None => Owner("", "", 0, "", 0, "", 0, "", 0);
    forall x | x in s.b.disk.sessions
      ensures SessionMark(e, s.b.disk.sessions[x]) <= SessionMark(e, t.b.disk.sessions[x]) + (if x == who then Shrink(v) else 0)
    {
      SidesKnown(s, t, x);
      assert Record(t.b.disk, x, t.b.disk.sessions[x]);
      RecordGrows(e, s, v, s.b.disk.sessions[x], t.b.disk.sessions[x], x);
    }
    LedgerGrows(e, s.b.disk, t.b.disk, who, Shrink(v));
  }

  lemma CompleteGrows(e: Encoding, s: System, o: Owner, step: ProcEvent, t: System)
    requires Landed(e, s, ProcMoves(o, step), t) && step.Complete?
    ensures LedgerMark(e, s.b.disk) <= LedgerMark(e, t.b.disk) + 2
  {
    hide SessionMark, LedgerMark, Sides, ProcNext, SystemInv, HasInvocation, OwnerInv, Ordinary, Limit;
    SidesKnown(s, t, o);
    WrittenCompletion(e, s, o, step, t.b.disk.sessions[o]);
    LedgerGrows(e, s.b.disk, t.b.disk, o, 2);
  }

  // ---------------------------------------------------------------------------
  // A nearly full ledger
  // ---------------------------------------------------------------------------

  ghost predicate HasRoom(e: Encoding, l: Ledger) {
    LedgerMark(e, l) < MAX_LEDGER_BYTES
  }

  /** An ordinary change is the work of an owner that is not retired. */
  lemma OrdinaryLive(s: System, v: Event, l: Ledger)
    requires SystemInv(s) && Writes(s, v, l) && Ordinary(s, v)
    ensures LiveOwners(l) != {}
  {
    hide SystemInv, LiveOwners, ReserveChange, ControlChange, CompleteChange, ParsedContext;
    match v
    case Controlled(path, c, _, _) => ControlLive(s.b.mem, path, c, s.now);
    case Reserving(c, r, normal, _, _) => ReserveLive(s.b.mem, c, r, normal, s.now);
    case ProcMoves(o, step) => CompleteLive(s, o, step, l);
  }

  lemma ReserveLive(l: Ledger, c: Context, r: Request, normal: bool, now: int)
    requires ReserveNext(l, c, r, normal, now).Ok?
    ensures c.owner in LiveOwners(ReserveNext(l, c, r, normal, now).value.0)
  {
    var m := EnsureSession(l, c.owner).value;
    ReserveStages(m, c, r, normal, now);
  }

  lemma CompleteLive(s: System, o: Owner, step: ProcEvent, l: Ledger)
    requires SystemInv(s) && step.Complete? && Writes(s, ProcMoves(o, step), l)
    ensures o in LiveOwners(l)
  {
    hide SystemInv, SessionSound, SessionWorld, CompleteChange, CompletedSession, PcFacts;
    RecordNow(s, o, s.b.mem.sessions[o]);
    var p := s.procs[o];
    CompleteStages(s.b.mem.sessions[o], p.prompt, p.seqNo, step.summary, step.newAliases, s.now);
    CompletedLive(s.b.mem.sessions[o], p.prompt, p.seqNo);
  }

  lemma CompletedLive(m: Session, k: PromptKey, q: nat)
    requires HasInvocation(m, k, q)
    ensures forall link :: CompletedSession(m, k, q, link).retired == m.retired
  {
  }

  lemma ControlLive(l: Ledger, path: Path, c: Context, now: int)
    requires !path.Responses? && ControlOrdinary(l, path, c) && ControlNext(l, path, c, now).Ok?
    ensures c.owner in LiveOwners(ControlNext(l, path, c, now).value)
  {
    var m := EnsureSession(l, c.owner).value;
    if path.Renew? { RenewStages(m, c, now); }
  }

  lemma LiveReserve(l: Ledger)
    requires LiveOwners(l) != {}
    ensures SLACK_BYTES * |LiveOwners(l)| + 100 < ReserveBytes(l)
  {
    var n := |LiveOwners(l)|;
    assert n >= 1;
    assert SLACK_BYTES * n + 100 < OWNER_RESERVE_BYTES * n;
  }

  /** An ordinary change needs room before it, whatever it does. */
  lemma OrdinaryNeedsRoom(e: Encoding, s: System, v: Event, t: System)
    requires TimesBounded(e) && Landed(e, s, v, t) && t.b.disk != s.b.disk && Ordinary(s, v)
    ensures HasRoom(e, s.b.disk)
  {
    hide LedgerMark, LedgerBytes, Writes, SystemInv, EventAuthorized, TextsLedger, ReserveBytes;
    if v.ProcMoves? && v.step.Complete? {
      CompleteGrows(e, s, v.owner, v.step, t);
    } else {
      OtherGrows(e, s, v, t);
    }
    OrdinaryLive(s, v, t.b.disk);
    LedgerAbove(e, t.b.disk);
    LiveReserve(t.b.disk);
  }

  /** Without room there is none after the next event either. */
  lemma RoomNeededBefore(e: Encoding, s: System, v: Event)
    requires TimesBounded(e) && RunInv(s) && TextsLedger(s.b.mem) && TextsLedger(s.b.disk) && ProcsPrepared(s)
    requires HasRoom(e, Apply(SizeOf(e), s, v).b.disk)
    ensures HasRoom(e, s.b.disk)
  {
    hide Apply, LedgerMark, Landed, Ordinary;
    var t := Apply(SizeOf(e), s, v);
    if t.b.disk != s.b.disk {
      Lands(e, s, v);
      if Ordinary(s, v) {
        OrdinaryNeedsRoom(e, s, v, t);
      } else {
        NotOrdinary(s, v);
        OtherGrows(e, s, v, t);
      }
    }
  }

  lemma NotOrdinary(s: System, v: Event)
    requires !Ordinary(s, v)
    ensures Shrink(v) == 0 && !(v.ProcMoves? && v.step.Complete?)
  {
  }

  // ---------------------------------------------------------------------------
  // The end of a request fits while there is room
  // ---------------------------------------------------------------------------

  lemma FinishPromptMark(e: Encoding, p: Prompt, q: nat, outcome: Outcome)
    requires q in p.invocations
    ensures var state := FinalState(p.invocations[q].state, outcome);
            PromptMark(e, WithInvocation(p, q, p.invocations[q].(state := state)).(closing := true)) == PromptMark(e, p)
  {
    var i := p.invocations[q].(state := FinalState(p.invocations[q].state, outcome));
    TotalPut(p.invocations, q, i, InvocationMark);
    assert InvocationMark(q, i) == InvocationMark(q, p.invocations[q]);
    assert p.invocations[q := i].Keys == p.invocations.Keys;
    assert |p.invocations[q := i]| == |p.invocations[q := i].Keys| == |p.invocations.Keys|;
  }

  lemma FinishSessionMark(e: Encoding, s: Session, k: PromptKey, q: nat, outcome: Outcome)
    requires HasInvocation(s, k, q)
    ensures SessionMark(e, FinishChange(s, k, q, outcome)) == SessionMark(e, s)
  {
    if !outcome.Success? {
      var state := FinalState(s.prompts[k].invocations[q].state, outcome);
      var p := WithInvocation(s.prompts[k], q, s.prompts[k].invocations[q].(state := state)).(closing := true);
      var t := s.(prompts := s.prompts[k := p]);
      assert FinishChange(s, k, q, outcome) == t;
      FinishPromptMark(e, s.prompts[k], q, outcome);
      PromptMarkPut(e, s, k, p);
    }
  }

  lemma ShellSame(e: Encoding, s: Session, prompts: map<PromptKey, Prompt>)
    ensures var t := s.(prompts := prompts);
            SessionShell(e, Stripped(t)) == SessionShell(e, Stripped(s)) && SessionRest(t) == SessionRest(s)
  {
    hide Quoted, LinkBytes, OperationBytes;
  }

  lemma PromptMarkPut(e: Encoding, s: Session, k: PromptKey, p: Prompt)
    requires k in s.prompts && PromptMark(e, p) == PromptMark(e, s.prompts[k])
    ensures SessionMark(e, s.(prompts := s.prompts[k := p])) == SessionMark(e, s)
  {
    hide PromptMark, SessionShell, SessionRest, Stripped;
    ShellSame(e, s, s.prompts[k := p]);
    TotalPut(s.prompts, k, p, PromptMarkOf(e));
    assert s.prompts[k := p].Keys == s.prompts.Keys;
    assert |s.prompts[k := p]| == |s.prompts[k := p].Keys| == |s.prompts.Keys|;
  }

  lemma SessionMarkPut(e: Encoding, l: Ledger, o: Owner, t: Session)
    requires o in l.sessions && SessionMark(e, t) == SessionMark(e, l.sessions[o])
    ensures LedgerMark(e, PutSession(l, o, t)) == LedgerMark(e, l)
  {
    hide SessionMark;
    TotalPut(l.sessions, o, t, SessionMarkOf(e));
    assert l.sessions[o := t].Keys == l.sessions.Keys;
    assert |l.sessions[o := t]| == |l.sessions[o := t].Keys| == |l.sessions.Keys|;
  }

  lemma FinishedSound(s: System, o: Owner)
    requires SystemInv(s) && CanStep(s, o) && s.procs[o].pc.Ended? && TextsLedger(s.b.mem) && ProcsPrepared(s) && TidyLedger(s.b.mem)
    ensures OwnersSound(FinishedLedger(s, o)) && TextsLedger(FinishedLedger(s, o)) && TidyLedger(FinishedLedger(s, o))
  {
    hide SessionSound, SessionWorld, TidyRecord, SessionTexts, FinishChange, HasInvocation, LastSequenceValid, WorkerFacts, SessionValid, LedgerInv, OwnerInv, WorldOf, DigestValid;
    var l := FinishedLedger(s, o);
    var p, m := s.procs[o], s.b.mem.sessions[o];
    FinishWrites(s, o);
    WritesTexts(s, ProcMoves(o, Finish(Saved)), l);
    WritesNoNew(s, ProcMoves(o, Finish(Saved)), l);
    RecordNow(s, o, m);
    FinishCommitted(m, o, p, WorldOf(s, o));
    LedgersSound(s);
    forall x, n | Record(l, x, n) ensures SessionSound(n, x) && TidyRecord(n) {
      assert Record(s.b.mem, x, s.b.mem.sessions[x]);
      if x == o { TidyStays(m, n, None); }
    }
  }

  lemma FinishesInRoom(e: Encoding, s: System)
    requires RunInv(s) && TextsLedger(s.b.mem) && ProcsPrepared(s) && TidyLedger(s.b.disk) && HasRoom(e, s.b.disk)
    ensures FinishesFit(e, s)
  {
    hide SystemInv, LedgerMark, LedgerBytes, FinishChange, TidyLedger, TextsLedger, ProcsPrepared;
    if s.b.mem == s.b.disk {
      forall o | CanStep(s, o) && s.procs[o].pc.Ended? ensures LedgerBytes(e, FinishedLedger(s, o)) <= MAX_LEDGER_BYTES {
        var p, m := s.procs[o], s.b.mem.sessions[o];
        FinishedSound(s, o);
        LedgerBelow(e, FinishedLedger(s, o));
        FinishSessionMark(e, m, p.prompt, p.seqNo, p.pc.outcome);
        SessionMarkPut(e, s.b.mem, o, FinishChange(m, p.prompt, p.seqNo, p.pc.outcome));
      }
    }
  }

  // ---------------------------------------------------------------------------
  // Prompts left unfinished
  // ---------------------------------------------------------------------------

  /** Every prompt left unfinished is on disk. */
  ghost predicate UnfinishedKnown(s: System) {
    forall o, k :: k in WorldOf(s, o).unfinished ==> o in s.b.disk.sessions && k in s.b.disk.sessions[o].prompts
  }

  /** Every prompt left unfinished is closed. */
  ghost predicate UnfinishedClosed(s: System) {
    forall o, k :: k in WorldOf(s, o).unfinished ==>
      o in s.b.disk.sessions && k in s.b.disk.sessions[o].prompts && s.b.disk.sessions[o].prompts[k].closing
  }

  ghost predicate LinearInv(e: Encoding, s: System) {
    && TextsLedger(s.b.mem) && TextsLedger(s.b.disk) && ProcsPrepared(s) && TidyLedger(s.b.disk) && UnfinishedKnown(s)
    && (s.up && !s.b.poisoned && HasRoom(e, s.b.disk) ==> OpenLedger(s) && UnfinishedClosed(s))
  }

  lemma FinishLeaves(size: Ledger -> nat, s: System, o: Owner, io: Io)
    requires SystemInv(s) && CanStep(s, o) && s.procs[o].pc.Ended?
    ensures var t, k := ProcStep(size, s, o, Finish(io)), s.procs[o].prompt;
            || WorldOf(t, o).unfinished == WorldOf(s, o).unfinished
            || (WorldOf(t, o).unfinished == WorldOf(s, o).unfinished + {k}
                && o in s.b.disk.sessions && k in s.b.disk.sessions[o].prompts)
  {
    hide FinishChange, OwnersInv, LedgerInv, OwnerInv, SideInv, OnSession, SidesAgree, IdentityChange, RefusedCreate, CreateResultChange;
  }

  lemma UnfinishedFrom(size: Ledger -> nat, s: System, v: Event, o: Owner)
    requires SystemInv(s)
    ensures forall k :: k in WorldOf(Apply(size, s, v), o).unfinished ==>
              k in WorldOf(s, o).unfinished || (o in s.b.disk.sessions && k in s.b.disk.sessions[o].prompts)
  {
    hide ProcStep, SystemInv;
    if v.ProcMoves? && v.owner == o && v.step.Finish? && CanStep(s, o) && s.procs[o].pc.Ended? {
      FinishLeaves(size, s, o, v.step.io);
    } else {
      UnfinishedSame(size, s, v, o);
    }
  }

  lemma KnownKept(size: Ledger -> nat, s: System, v: Event)
    requires RunInv(s) && UnfinishedKnown(s)
    ensures UnfinishedKnown(Apply(size, s, v))
  {
    hide Apply, SystemInv;
    var t := Apply(size, s, v);
    ApplyKeeps(size, s, v);
    StepForward(s.b, t.b);
    forall o, k | k in WorldOf(t, o).unfinished ensures o in t.b.disk.sessions && k in t.b.disk.sessions[o].prompts {
      UnfinishedFrom(size, s, v, o);
      DiskAdvances(s, t, o);
    }
  }

  lemma RestartClosesAll(size: Ledger -> nat, s: System, v: Event)
    requires RunInv(s) && UnfinishedKnown(s) && !s.up && Apply(size, s, v).up
    ensures UnfinishedClosed(Apply(size, s, v))
  {
    hide SystemInv, ProcStep, OwnerInv, ReserveStep, RestartStep, SideInv, ReserveNext, ReserveChange, WorkerStep, SessionAdvances;
    var t := Apply(size, s, v);
    ApplyKeeps(size, s, v);
    forall o, k | k in WorldOf(t, o).unfinished
      ensures o in t.b.disk.sessions && k in t.b.disk.sessions[o].prompts && t.b.disk.sessions[o].prompts[k].closing
    {
      UnfinishedSame(size, s, v, o);
      RestartedClosed(size, s, v.io, o, k);
    }
  }

  lemma RestartedClosed(size: Ledger -> nat, s: System, io: Io, o: Owner, k: PromptKey)
    requires RunInv(s) && !s.up && RestartStep(size, s, io).up && SystemInv(RestartStep(size, s, io))
    requires o in s.b.disk.sessions && k in s.b.disk.sessions[o].prompts
    ensures var t := RestartStep(size, s, io);
            o in t.b.disk.sessions && k in t.b.disk.sessions[o].prompts && t.b.disk.sessions[o].prompts[k].closing
  {
    var t := RestartStep(size, s, io);
    RestartCloses(size, s, io, o, k);
    assert t.b.mem == t.b.disk by { RestartShape(size, s, io); }
    RecordNow(t, o, t.b.disk.sessions[o]);
    SettledCloses(t.b.disk.sessions[o], o);
  }

  lemma ClosedKept(e: Encoding, s: System, v: Event)
    requires RunInv(s) && UnfinishedClosed(s) && FinishesFit(e, s)
    ensures UnfinishedClosed(Apply(SizeOf(e), s, v))
  {
    hide Apply, SystemInv, FinishesFit;
    var t := Apply(SizeOf(e), s, v);
    ApplyKeeps(SizeOf(e), s, v);
    StepForward(s.b, t.b);
    forall o, k | k in WorldOf(t, o).unfinished
      ensures o in t.b.disk.sessions && k in t.b.disk.sessions[o].prompts && t.b.disk.sessions[o].prompts[k].closing
    {
      UnfinishedKept(e, s, v, o);
      DiskAdvances(s, t, o);
      assert PromptAdvances(s.b.disk.sessions[o].prompts[k], t.b.disk.sessions[o].prompts[k]);
    }
  }

  // ---------------------------------------------------------------------------
  // Every event
  // ---------------------------------------------------------------------------

  lemma TidyKept(e: Encoding, s: System, v: Event)
    requires TimesBounded(e) && RunInv(s) && LinearInv(e, s)
    ensures TidyLedger(Apply(SizeOf(e), s, v).b.disk)
  {
    hide Apply, Landed, HasRoom, OpenLedger, TidyLedger, Writes;
    var t := Apply(SizeOf(e), s, v);
    if !v.Reserving? {
      OthersTidy(SizeOf(e), s, v);
    } else if t.b.disk != s.b.disk {
      AdmissionRoom(e, s, v);
      WrittenTidy(SizeOf(e), s, v);
    }
  }

  /** Whatever is admitted finds room, and every prompt that was left unfinished closed. */
  lemma AdmissionRoom(e: Encoding, s: System, v: Event)
    requires TimesBounded(e) && RunInv(s) && LinearInv(e, s) && v.Reserving? && Apply(SizeOf(e), s, v).b.disk != s.b.disk
    ensures s.up && !s.b.poisoned && OpenLedger(s) && UnfinishedClosed(s)
  {
    hide Apply, HasRoom, OpenLedger, TidyLedger;
    Lands(e, s, v);
    OrdinaryNeedsRoom(e, s, v, Apply(SizeOf(e), s, v));
  }

  lemma OpenNow(e: Encoding, s: System, v: Event)
    requires TimesBounded(e) && RunInv(s) && LinearInv(e, s)
    requires var t := Apply(SizeOf(e), s, v); t.up && !t.b.poisoned && HasRoom(e, t.b.disk)
    ensures OpenLedger(Apply(SizeOf(e), s, v)) && UnfinishedClosed(Apply(SizeOf(e), s, v))
  {
    hide Apply, HasRoom, OpenRecord, TidyLedger, TextsLedger, ProcsPrepared, FinishesFit, SystemInv;
    var t := Apply(SizeOf(e), s, v);
    ApplyKeeps(SizeOf(e), s, v);
    RoomNeededBefore(e, s, v);
    FinishesInRoom(e, s);
    UpMemory(t);
    forall o, n | Record(t.b.disk, o, n) ensures OpenRecord(n, ProcOf(t, o)) {
      OpenKept(e, s, v, o, n);
    }
    if !s.up {
      RestartClosesAll(SizeOf(e), s, v);
    } else if s.b.poisoned {
      StillPoisoned(SizeOf(e), s, v);
    } else {
      ClosedKept(e, s, v);
    }
  }

  lemma UpMemory(s: System)
    requires SystemInv(s) && s.up && !s.b.poisoned
    ensures s.b.mem == s.b.disk
  {
  }

  lemma LinearKept(e: Encoding, s: System, v: Event)
    requires TimesBounded(e) && RunInv(s) && LinearInv(e, s)
    ensures LinearInv(e, Apply(SizeOf(e), s, v))
  {
    hide Apply, HasRoom, OpenLedger, TidyLedger, TextsLedger, ProcsPrepared, UnfinishedKnown, UnfinishedClosed;
    TextsKept(SizeOf(e), s, v);
    TidyKept(e, s, v);
    KnownKept(SizeOf(e), s, v);
    var t := Apply(SizeOf(e), s, v);
    if t.up && !t.b.poisoned && HasRoom(e, t.b.disk) { OpenNow(e, s, v); }
  }

  // ---------------------------------------------------------------------------
  // Whole runs
  // ---------------------------------------------------------------------------

  ghost predicate ContinuedAtMost(s: System, o: Owner) {
    forall a :: a in WorldOf(s, o).continued ==> WorldOf(s, o).continued[a] <= 1
  }

  /** A response that is continued now was not continued before. */
  lemma FirstUse(e: Encoding, s: System, v: Event)
    requires TimesBounded(e) && RunInv(s) && LinearInv(e, s) && v.Reserving? && ContinuedInv(s, v.context.owner)
    requires WorldOf(Apply(SizeOf(e), s, v), v.context.owner).continued != WorldOf(s, v.context.owner).continued
    ensures WorldOf(Apply(SizeOf(e), s, v), v.context.owner).continued
            == Bumped(WorldOf(s, v.context.owner).continued, v.request.previous)
    ensures v.request.previous !in WorldOf(s, v.context.owner).continued
  {
    hide SystemInv, LinearInv, ContinuedInv, Spent, Apply, ProcStep, OwnerInv, WorkerStep, SessionAdvances;
    var o, a, t := v.context.owner, v.request.previous, Apply(SizeOf(e), s, v);
    ReservedContinuation(SizeOf(e), s, v);
    ContinuationLands(SizeOf(e), s, v);
    AdmissionRoom(e, s, v);
    if a in WorldOf(s, o).continued {
      ApplyKeeps(SizeOf(e), s, v);
      StepForward(s.b, t.b);
      UpMemory(s);
      RecordNow(s, o, s.b.mem.sessions[o]);
      ContinuationAdmitted(s.b.mem.sessions[o], o, v.context, v.request, v.outputsNormal, s.now);
      DurableStays(s, t, o, a);
    }
  }

  lemma ContinuationLands(size: Ledger -> nat, s: System, v: Event)
    requires v.Reserving? && WorldOf(Apply(size, s, v), v.context.owner).continued != WorldOf(s, v.context.owner).continued
    ensures v.request.input.Items? && Apply(size, s, v).b.disk != s.b.disk
    ensures v.context.owner in s.b.mem.sessions
            && ReserveChange(s.b.mem.sessions[v.context.owner], v.context, v.request, v.outputsNormal, s.now).Ok?
  {
    hide ProcStep, ParsedContext, ControlChange, SweepExpired, Reserve, SetWorld, SafeString, RestartStep;
    ReserveCounts(size, s, v.context, v.request, v.outputsNormal, v.io);
    AdmittedKnown(s.b.mem, v.context, v.request, v.outputsNormal, s.now);
  }

  lemma AtMostKept(e: Encoding, s: System, v: Event, o: Owner)
    requires TimesBounded(e) && RunInv(s) && LinearInv(e, s) && ContinuedInv(s, o) && ContinuedAtMost(s, o)
    ensures ContinuedAtMost(Apply(SizeOf(e), s, v), o)
  {
    hide Apply, SystemInv, LinearInv, ContinuedInv;
    CountsStay(SizeOf(e), s, v, o);
    if WorldOf(Apply(SizeOf(e), s, v), o).continued != WorldOf(s, o).continued { FirstUse(e, s, v); }
  }

  lemma {:induction false} LinearRun(e: Encoding, s: System, events: seq<Event>, o: Owner)
    requires TimesBounded(e) && RunInv(s) && LinearInv(e, s) && ContinuedInv(s, o) && ContinuedAtMost(s, o)
    ensures var t := Run(SizeOf(e), s, events);
            RunInv(t) && LinearInv(e, t) && ContinuedInv(t, o) && ContinuedAtMost(t, o)
  {
    hide Apply, LinearInv, RunInv, ContinuedInv, ContinuedAtMost;
    if events != [] {
      var last := |events| - 1;
      var u := Run(SizeOf(e), s, events[..last]);
      LinearRun(e, s, events[..last], o);
      RunKeeps(SizeOf(e), s, events);
      LinearKept(e, u, events[last]);
      ContinuedKept(SizeOf(e), u, events[last], o);
      AtMostKept(e, u, events[last], o);
    }
  }

  lemma InitialLinear(e: Encoding, configDigest: string, now: int, o: Owner)
    ensures LinearInv(e, Initial(configDigest, now)) && ContinuedInv(Initial(configDigest, now), o)
  {
  }

  /**
   In any run, with any crashes, failed writes and refusals for lack of space: the results of one
   response's calls are admitted at most once.
   */
  lemma ContinuedOnce(e: Encoding, configDigest: string, now: int, events: seq<Event>, o: Owner, a: string)
    requires TimesBounded(e) && now > 0
    requires a in WorldOf(Run(SizeOf(e), Initial(configDigest, now), events), o).continued
    ensures WorldOf(Run(SizeOf(e), Initial(configDigest, now), events), o).continued[a] <= 1
  {
    hide Apply, LinearInv, ContinuedInv, RunInv;
    var s := Initial(configDigest, now);
    Reachable(SizeOf(e), configDigest, now, []);
    assert Run(SizeOf(e), s, []) == s;
    InitialLinear(e, configDigest, now, o);
    LinearRun(e, s, events, o);
  }
}
