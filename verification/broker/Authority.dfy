/**
 Where intents and leases come from: nothing is sent without an intent, and no intent is
 written without an open prompt, an unexpired lease and a live request.
 */
module BrokerAuthority {
  import opened Wrappers
  import opened Text
  import opened BrokerLedger
  import opened BrokerChanges
  import opened BrokerValidity
  import opened BrokerSystem
  import opened BrokerInvariant
  import opened BrokerSteps
  import opened BrokerRequests
  import opened BrokerCleanup
  import opened BrokerSafety
  import opened BrokerMoves
  import opened BrokerEvents
  import opened BrokerRuns
  import opened BrokerTheorems
  import opened BrokerWrites

  // ---------------------------------------------------------------------------
  // One record
  // ---------------------------------------------------------------------------

  predicate IntentAt(m: Session, k: PromptKey, q: nat) {
    HasInvocation(m, k, q) && m.prompts[k].invocations[q].state.Intent?
  }

  ghost predicate NoNewIntent(s: Session, t: Session) {
    && (forall k, q :: IntentAt(t, k, q) ==> IntentAt(s, k, q))
    && (t.createState.CreateIntent? ==> s.createState.CreateIntent? && t.remoteID == s.remoteID)
  }

  ghost predicate SameLeases(s: Session, t: Session) {
    forall k :: k in s.prompts && k in t.prompts ==>
                  t.prompts[k].leaseGeneration == s.prompts[k].leaseGeneration
                  && t.prompts[k].leaseExpires == s.prompts[k].leaseExpires
  }

  /** A change that extends no authority. */
  ghost predicate Routine(s: Session, t: Session) {
    NoNewIntent(s, t) && SameLeases(s, t)
  }

  lemma CalmNoIntent(s: Session, t: Session)
    requires SameWork(s, t)
    ensures NoNewIntent(s, t)
  {
    forall k, q | IntentAt(t, k, q) ensures IntentAt(s, k, q) {
      assert k in s.prompts;
    }
  }

  lemma RetireRoutine(s: Session, c: Context)
    requires RetireChange(s, c).Ok?
    ensures Routine(s, RetireChange(s, c).value)
  {
  }

  lemma EnsureRoutine(s: Session, c: Context)
    requires EnsurePrompt(s, c).Ok?
    ensures Routine(s, EnsurePrompt(s, c).value)
  {
  }

  lemma SettleRoutine(s: Session, c: Context)
    requires SettleChange(s, c).Ok?
    ensures Routine(s, SettleChange(s, c).value)
  {
    hide EnsurePrompt;
    var s1 := RecordOperation(s, Settle, c).value.0;
    EnsureRoutine(s1, c);
    assert forall k, q :: IntentAt(SettleChange(s, c).value, k, q) ==> IntentAt(EnsurePrompt(s1, c).value, k, q);
    assert forall k, q :: IntentAt(s1, k, q) ==> IntentAt(s, k, q);
  }

  /** What a renewal does to every lease that exists. */
  ghost predicate RenewedLeases(s: Session, t: Session, c: Context, now: int) {
    forall k :: k in s.prompts && k in t.prompts ==>
                  || (t.prompts[k].leaseGeneration == s.prompts[k].leaseGeneration && t.prompts[k].leaseExpires == s.prompts[k].leaseExpires)
                  || (k == c.prompt && t.prompts[k].leaseGeneration == s.prompts[k].leaseGeneration + 1
                      && now < s.prompts[k].leaseExpires <= t.prompts[k].leaseExpires && !s.prompts[k].closing)
  }

  lemma RenewLeases(s: Session, c: Context, now: int)
    requires c.prompt in s.prompts ==> s.prompts[c.prompt].leaseGeneration <= MAX_UINT64
    requires Admissible(Renew, c) && RenewChange(s, c, now).Ok?
    ensures RenewedLeases(s, RenewChange(s, c, now).value, c, now)
  {
    hide RenewChange, RenewLease;
    RenewStages(s, c, now);
    var s2 := EnsurePrompt(RecordOperation(s, Renew, c).value.0, c).value;
    if c.prompt in s.prompts && RenewLease(s2.prompts[c.prompt], c, now).Ok? {
      RenewalByOne(s2.prompts[c.prompt], c, now);
      OpenRenewed(s2.prompts[c.prompt], c, now);
    }
  }

  lemma OpenRenewed(p: Prompt, c: Context, now: int)
    requires RenewLease(p, c, now).Ok?
    ensures !p.closing && (RenewLease(p, c, now).value.leaseExpires != p.leaseExpires ==> RenewLease(p, c, now).value != p)
  {
  }

  lemma RecordRoutine(s: Session, path: Path, c: Context)
    requires RecordOperation(s, path, c).Ok?
    ensures Routine(s, RecordOperation(s, path, c).value.0) && RecordOperation(s, path, c).value.0.prompts == s.prompts
  {
  }

  lemma EnsureKeeps(s: Session, c: Context)
    requires EnsurePrompt(s, c).Ok?
    ensures s.prompts.Keys <= EnsurePrompt(s, c).value.prompts.Keys
  {
  }

  lemma ReservedRoutine(s: Session, c: Context)
    requires c.prompt in s.prompts
    ensures Routine(s, PutPrompt(s, c.prompt, ReservedPrompt(s.prompts[c.prompt], c)))
    ensures s.prompts.Keys <= PutPrompt(s, c.prompt, ReservedPrompt(s.prompts[c.prompt], c)).prompts.Keys
  {
  }

  lemma RoutineTrans(s: Session, t: Session, u: Session)
    requires Routine(s, t) && Routine(t, u) && s.prompts.Keys <= t.prompts.Keys
    ensures Routine(s, u)
  {
    hide IntentAt;
  }

  lemma ReserveRoutine(s: Session, c: Context, r: Request, normal: bool, now: int)
    requires ReserveChange(s, c, r, normal, now).Ok?
    ensures Routine(s, ReserveChange(s, c, r, normal, now).value.0)
  {
    hide Routine, RecordOperation, EnsurePrompt, ReserveChange, ReservedPrompt, TranslatePrevious, PutPrompt;
    ReserveStages(s, c, r, normal, now);
    RecordRoutine(s, Responses, c);
    var s1 := RecordOperation(s, Responses, c).value.0;
    EnsureRoutine(s1, c);
    EnsureKeeps(s1, c);
    var s2 := EnsurePrompt(s1, c).value;
    ReservedRoutine(s2, c);
    RoutineTrans(s, s1, s2);
    RoutineTrans(s, s2, ReserveChange(s, c, r, normal, now).value.0);
  }

  lemma PutStateRoutine(s: Session, k: PromptKey, q: nat, state: InvocationState)
    requires HasInvocation(s, k, q) && !state.Intent?
    ensures Routine(s, PutState(s, k, q, state))
  {
  }

  lemma FinishRoutine(s: Session, k: PromptKey, q: nat, outcome: Outcome)
    requires HasInvocation(s, k, q)
    ensures Routine(s, FinishChange(s, k, q, outcome))
  {
  }

  lemma IdentityRoutine(s: Session, k: PromptKey, q: nat, id: string, alias: string)
    requires HasInvocation(s, k, q) && IdentityChange(s, k, q, id, alias).Ok?
    ensures Routine(s, IdentityChange(s, k, q, id, alias).value)
  {
  }

  lemma CompleteRoutine(s: Session, k: PromptKey, q: nat, r: Summary, aliases: seq<string>, now: int)
    requires HasInvocation(s, k, q) && |aliases| == |r.calls| && CompleteChange(s, k, q, r, aliases, now).Ok?
    ensures Routine(s, CompleteChange(s, k, q, r, aliases, now).value)
  {
    CompleteStages(s, k, q, r, aliases, now);
  }

  lemma CleanupRoutine(m: Session, closing: set<PromptKey>, retiring: bool, created: bool, kind: Kind, remote: string, at: int)
    requires CleanupChange(m, closing, retiring, created, kind, remote, at).Ok?
    ensures Routine(m, CleanupChange(m, closing, retiring, created, kind, remote, at).value)
  {
    CleanupStages(m, closing, retiring, created, kind, remote, at);
  }

  lemma CreateIntentRoutine(s: Session, k: PromptKey, remote: string, cancelled: bool, now: int)
    requires k in s.prompts && CreateIntentChange(s, k, remote, cancelled, now).Ok?
    ensures var t := CreateIntentChange(s, k, remote, cancelled, now).value;
            SameLeases(s, t) && forall l, q :: IntentAt(t, l, q) ==> IntentAt(s, l, q)
  {
  }

  lemma InferIntentRoutine(s: Session, k: PromptKey, q: nat, cancelled: bool, now: int)
    requires HasInvocation(s, k, q) && InferIntentChange(s, k, q, cancelled, now).Ok?
    ensures var t := InferIntentChange(s, k, q, cancelled, now).value;
            SameLeases(s, t) && (t.createState.CreateIntent? ==> s.createState.CreateIntent? && t.remoteID == s.remoteID)
            && forall l, r :: IntentAt(t, l, r) ==> IntentAt(s, l, r) || (l == k && r == q)
  {
  }

  // ---------------------------------------------------------------------------
  // One event
  // ---------------------------------------------------------------------------

  function Before(l: Ledger, o: Owner): Session {
    if o in l.sessions then l.sessions[o] else EmptySession(o)
  }

  ghost predicate RoutineLedger(l: Ledger, m: Ledger) {
    forall o, t :: Record(m, o, t) ==> Routine(Before(l, o), t)
  }

  lemma RoutineSelf(l: Ledger)
    ensures RoutineLedger(l, l)
  {
  }

  lemma PutRoutine(l: Ledger, o: Owner, t: Session)
    requires Routine(Before(l, o), t)
    ensures RoutineLedger(l, PutSession(l, o, t))
  {
  }

  lemma ControlNextRoutine(l: Ledger, path: Path, c: Context, now: int)
    requires (path.Retire? || path.Settle?) && ControlNext(l, path, c, now).Ok?
    ensures RoutineLedger(l, ControlNext(l, path, c, now).value)
  {
    var s := EnsureSession(l, c.owner).value;
    if path.Retire? { RetireRoutine(s, c); } else { SettleRoutine(s, c); }
    PutRoutine(l, c.owner, ControlChange(s, path, c, now).value);
  }

  lemma ReserveNextRoutine(l: Ledger, c: Context, r: Request, normal: bool, now: int)
    requires ReserveNext(l, c, r, normal, now).Ok?
    ensures RoutineLedger(l, ReserveNext(l, c, r, normal, now).value.0)
  {
    var s := EnsureSession(l, c.owner).value;
    ReserveRoutine(s, c, r, normal, now);
    PutRoutine(l, c.owner, ReserveChange(s, c, r, normal, now).value.0);
  }

  lemma ProcNextRoutine(s: System, o: Owner, e: ProcEvent)
    requires CanStep(s, o) && !e.CommitCreateIntent? && !e.CommitInferIntent?
    requires ProcNext(s, o, e).Some? && ProcNext(s, o, e).value.Ok?
    ensures Routine(s.b.mem.sessions[o], ProcNext(s, o, e).value.value)
  {
    var p, m := s.procs[o], s.b.mem.sessions[o];
    match e
    case Identity(id, _, alias, _) => IdentityRoutine(m, p.prompt, p.seqNo, id, alias);
    case Complete(r, aliases, _) => CompleteRoutine(m, p.prompt, p.seqNo, r, aliases, s.now);
    case CommitRefusal(_) => PutStateRoutine(m, p.prompt, p.seqNo, Rejected);
    case Finish(_) => FinishRoutine(m, p.prompt, p.seqNo, p.pc.outcome);
    case CommitCreateResult(_) => CreateResultRoutine(m, p.pc.created);
  }

  lemma CreateResultRoutine(m: Session, created: bool)
    ensures Routine(m, CreateResultChange(m, created))
  {
  }

  lemma EveryRoutine(l: Ledger, f: Session -> Session)
    requires forall o :: o in l.sessions ==> Routine(l.sessions[o], f(l.sessions[o]))
    ensures RoutineLedger(l, ForSessions(l, f))
  {
  }

  lemma ExpireRoutine(m: Session, now: int)
    ensures Routine(m, ExpirePrompts(m, now))
  {
  }

  lemma RecoverRoutine(m: Session)
    ensures Routine(m, RecoverPrompts(m))
  {
  }

  lemma CloseRoutine(l: Ledger, o: Owner, k: PromptKey)
    ensures RoutineLedger(l, Disconnect(l, o, k))
  {
    if o in l.sessions { PutRoutine(l, o, ClosePrompt(l.sessions[o], k)); }
  }

  lemma SweptRoutine(l: Ledger, now: int)
    ensures RoutineLedger(l, Swept(l, now))
  {
    forall o | o in l.sessions ensures Routine(l.sessions[o], ExpirePrompts(l.sessions[o], now)) {
      ExpireRoutine(l.sessions[o], now);
    }
    EveryRoutine(l, x => ExpirePrompts(x, now));
  }

  lemma RecoveredRoutine(l: Ledger)
    ensures RoutineLedger(l, Recovered(l))
  {
    forall o | o in l.sessions ensures Routine(l.sessions[o], RecoverPrompts(l.sessions[o])) {
      RecoverRoutine(l.sessions[o]);
    }
    EveryRoutine(l, x => RecoverPrompts(x));
  }

  ghost predicate ExtendsAuthority(e: Event) {
    || (e.Controlled? && e.path.Renew?)
    || (e.ProcMoves? && (e.step.CommitCreateIntent? || e.step.CommitInferIntent?))
  }

  lemma WritesRoutine(s: System, e: Event, l: Ledger)
    requires Writes(s, e, l) && !ExtendsAuthority(e)
    ensures RoutineLedger(s.b.mem, l)
  {
    match e
    case Restart(_) => RecoveredRoutine(s.b.mem);
    case Sweeping(_) => SweptRoutine(s.b.mem, s.now);
    case Controlled(path, c, _, _) => ControlNextRoutine(s.b.mem, path, c, s.now);
    case Disconnected(o, k, _) => CloseRoutine(s.b.mem, o, k);
    case Reserving(c, r, normal, _, _) => ReserveNextRoutine(s.b.mem, c, r, normal, s.now);
    case Pinning(_, _) =>
    case ProcMoves(o, step) =>
      ProcNextRoutine(s, o, step);
      PutRoutine(s.b.mem, o, ProcNext(s, o, step).value.value);
    case WorkerMoves(o, move) =>
      var k := s.workers[o];
      CleanupRoutine(s.b.mem.sessions[o], k.closing, k.retiring, k.createState.Known?, k.stage.kind, k.remote, s.now);
      PutRoutine(s.b.mem, o, WorkerNext(s, o, move).value.value);
  }

  // ---------------------------------------------------------------------------
  // The three events that extend authority
  // ---------------------------------------------------------------------------

  /** A live request of an open prompt whose lease has not run out, with everything durable. */
  ghost predicate Authorized(s: System, o: Owner, k: PromptKey) {
    && s.up && !s.b.poisoned && s.b.mem == s.b.disk
    && o in s.procs && s.procs[o].prompt == k && !RequestCancelled(s.b, o)
    && o in s.b.disk.sessions && !s.b.disk.sessions[o].retiring && !s.b.disk.sessions[o].retired
    && k in s.b.disk.sessions[o].prompts
    && !s.b.disk.sessions[o].prompts[k].closing && s.b.disk.sessions[o].prompts[k].leaseExpires > s.now
  }

  /** A new intent is the work of an authorized request, and of its own event. */
  ghost predicate IntentsAuthorized(s: System, e: Event, o: Owner, m: Session, n: Session) {
    && (forall k, q :: IntentAt(n, k, q) && !IntentAt(m, k, q) ==>
          Authorized(s, o, k) && s.procs[o].seqNo == q && e.ProcMoves? && e.owner == o && e.step.CommitInferIntent?)
    && (n.createState.CreateIntent? && !(m.createState.CreateIntent? && m.remoteID == n.remoteID) ==>
          o in s.procs && Authorized(s, o, s.procs[o].prompt) && s.procs[o].pc == Prepared(n.remoteID)
          && e.ProcMoves? && e.owner == o && e.step.CommitCreateIntent?)
  }

  /** A lease changes only by a renewal, by one generation, while it has not run out, and never backwards. */
  ghost predicate LeasesAuthorized(s: System, e: Event, o: Owner, m: Session, n: Session) {
    forall k :: k in m.prompts && k in n.prompts
                && (n.prompts[k].leaseGeneration != m.prompts[k].leaseGeneration || n.prompts[k].leaseExpires != m.prompts[k].leaseExpires)
                ==> && e.Controlled? && e.path.Renew? && e.context.owner == o && e.context.prompt == k
                    && n.prompts[k].leaseGeneration == m.prompts[k].leaseGeneration + 1
                    && s.now < m.prompts[k].leaseExpires <= n.prompts[k].leaseExpires && !m.prompts[k].closing
  }

  ghost predicate EventAuthorized(s: System, e: Event, l: Ledger) {
    forall o, n :: Record(l, o, n) ==>
      IntentsAuthorized(s, e, o, Before(s.b.disk, o), n) && LeasesAuthorized(s, e, o, Before(s.b.disk, o), n)
  }

  lemma RoutineOne(s: System, e: Event, o: Owner, m: Session, n: Session)
    requires Routine(m, n)
    ensures IntentsAuthorized(s, e, o, m, n) && LeasesAuthorized(s, e, o, m, n)
  {
  }

  lemma RoutineAuthorized(s: System, e: Event, l: Ledger)
    requires RoutineLedger(s.b.disk, l)
    ensures EventAuthorized(s, e, l)
  {
    forall o, n | Record(l, o, n)
      ensures IntentsAuthorized(s, e, o, Before(s.b.disk, o), n) && LeasesAuthorized(s, e, o, Before(s.b.disk, o), n)
    {
      RoutineOne(s, e, o, Before(s.b.disk, o), n);
    }
  }

  lemma NothingRetired(m: Session, o: Owner)
    requires SessionValid(m, o) && !m.retiring
    ensures !m.retired
  {
  }

  lemma CreateIntentRecord(s: System, o: Owner, late: bool, io: Io, n: Session)
    requires SystemInv(s) && CanStep(s, o) && s.procs[o].pc.Prepared? && !s.b.poisoned && s.b.mem == s.b.disk
    requires var p, m := s.procs[o], s.b.mem.sessions[o];
             CreateIntentChange(m, p.prompt, p.pc.remote, RequestCancelled(s.b, o) || late, s.now) == Ok(n)
    ensures var e := ProcMoves(o, CommitCreateIntent(late, io));
            IntentsAuthorized(s, e, o, s.b.disk.sessions[o], n) && LeasesAuthorized(s, e, o, s.b.disk.sessions[o], n)
  {
    var p, m := s.procs[o], s.b.mem.sessions[o];
    CreateIntentRoutine(m, p.prompt, p.pc.remote, RequestCancelled(s.b, o) || late, s.now);
    RecordNow(s, o, m);
    NothingRetired(m, o);
  }

  lemma PutAuthorized(s: System, e: Event, o: Owner, n: Session)
    requires IntentsAuthorized(s, e, o, Before(s.b.disk, o), n) && LeasesAuthorized(s, e, o, Before(s.b.disk, o), n)
    ensures EventAuthorized(s, e, PutSession(s.b.disk, o, n))
  {
  }

  lemma InferIntentRecord(s: System, o: Owner, io: Io, n: Session)
    requires SystemInv(s) && CanStep(s, o) && s.procs[o].pc.SessionReady? && !s.b.poisoned && s.b.mem == s.b.disk
    requires var p, m := s.procs[o], s.b.mem.sessions[o];
             InferIntentChange(m, p.prompt, p.seqNo, RequestCancelled(s.b, o), s.now) == Ok(n)
    ensures var e := ProcMoves(o, CommitInferIntent(io));
            IntentsAuthorized(s, e, o, s.b.disk.sessions[o], n) && LeasesAuthorized(s, e, o, s.b.disk.sessions[o], n)
  {
    var p, m := s.procs[o], s.b.mem.sessions[o];
    InferIntentRoutine(m, p.prompt, p.seqNo, RequestCancelled(s.b, o), s.now);
    RecordNow(s, o, m);
    NothingRetired(m, o);
  }

  lemma RenewalRecord(s: System, c: Context, at: int, io: Io, m: Session, n: Session)
    requires SessionSound(m, c.owner) && Admissible(Renew, c) && RenewChange(m, c, s.now) == Ok(n)
    requires m == Before(s.b.disk, c.owner)
    ensures IntentsAuthorized(s, Controlled(Renew, c, at, io), c.owner, m, n)
    ensures LeasesAuthorized(s, Controlled(Renew, c, at, io), c.owner, m, n)
  {
    hide SessionShapeValid, RetirementValid, LastAliasValid, InvocationStateValid, DistinctRemotes, RecordOperation;
    if c.prompt in m.prompts { assert PromptValid(m.prompts[c.prompt], c.prompt, m); }
    RenewLeases(m, c, s.now);
    RenewCalm(m, c, s.now, c.owner);
    CalmNoIntent(m, n);
  }

  lemma RenewAuthorized(s: System, c: Context, at: int, io: Io, l: Ledger)
    requires SystemInv(s) && s.b.mem == s.b.disk && Admissible(Renew, c) && ControlNext(s.b.mem, Renew, c, s.now) == Ok(l)
    ensures EventAuthorized(s, Controlled(Renew, c, at, io), l)
  {
    LedgersSound(s);
    SessionEnsuredSound(s.b.mem, c.owner);
    var m := EnsureSession(s.b.mem, c.owner).value;
    RenewalRecord(s, c, at, io, m, RenewChange(m, c, s.now).value);
    PutAuthorized(s, Controlled(Renew, c, at, io), c.owner, RenewChange(m, c, s.now).value);
  }

  lemma WritesAuthorized(s: System, e: Event, l: Ledger)
    requires SystemInv(s) && s.b.mem == s.b.disk && (s.up ==> !s.b.poisoned) && Writes(s, e, l) && ExtendsAuthority(e)
    ensures EventAuthorized(s, e, l)
  {
    hide IntentsAuthorized, LeasesAuthorized, EventAuthorized, SystemInv, OwnerInv, SideInv, LedgerInv, ProcessInv, RequestCancelled, InferIntentChange, RenewChange, ReserveNext, ParsedContext;
    match e
    case Controlled(path, c, at, io) =>
      ParsedAdmissible(path, c, at);
      RenewAuthorized(s, c, at, io, l);
    case ProcMoves(o, step) =>
      var n := ProcNext(s, o, step).value.value;
      match step
      case CommitCreateIntent(late, io) =>
        CreateIntentRecord(s, o, late, io, n);
        PutAuthorized(s, e, o, n);
      case CommitInferIntent(io) =>
        InferIntentRecord(s, o, io, n);
        PutAuthorized(s, e, o, n);
  }

  /** No event writes an intent or moves a lease without authority. */
  lemma AuthorityKept(size: Ledger -> nat, s: System, e: Event)
    requires SystemInv(s)
    ensures EventAuthorized(s, e, Apply(size, s, e).b.disk)
  {
    hide Apply, OwnersInv, OwnerInv, SideInv, ProcStep, ReserveChange;
    var l := Apply(size, s, e).b.disk;
    DiskWritten(size, s, e);
    if l == s.b.disk {
      RoutineSelf(l);
      RoutineAuthorized(s, e, l);
    } else if ExtendsAuthority(e) {
      WritesAuthorized(s, e, l);
    } else {
      WritesRoutine(s, e, l);
      RoutineAuthorized(s, e, l);
    }
  }

  // ---------------------------------------------------------------------------
  // Whole runs
  // ---------------------------------------------------------------------------

  /** Event `e` writes, with authority, the intent for this inference, and the intent is on disk after it. */
  ghost predicate WritesIntent(size: Ledger -> nat, s: System, e: Event, o: Owner, key: InferKey) {
    && e.ProcMoves? && e.owner == o && e.step.CommitInferIntent?
    && Authorized(s, o, key.prompt) && s.procs[o].seqNo == key.seqNo
    && IntentAt(Before(Apply(size, s, e).b.disk, o), key.prompt, key.seqNo)
  }

  /** Event `e` writes, with authority, the intent to create this session, and the intent is on disk after it. */
  ghost predicate WritesCreation(size: Ledger -> nat, s: System, e: Event, o: Owner, remote: string) {
    && e.ProcMoves? && e.owner == o && e.step.CommitCreateIntent?
    && o in s.procs && Authorized(s, o, s.procs[o].prompt) && s.procs[o].pc == Prepared(remote)
    && IntendsCreation(Before(Apply(size, s, e).b.disk, o), remote)
  }

  ghost predicate IntentWritten(size: Ledger -> nat, s: System, events: seq<Event>, n: nat, o: Owner, key: InferKey) {
    n < |events| && WritesIntent(size, Run(size, s, events[..n]), events[n], o, key)
  }

  ghost predicate CreationWritten(size: Ledger -> nat, s: System, events: seq<Event>, n: nat, o: Owner, remote: string) {
    n < |events| && WritesCreation(size, Run(size, s, events[..n]), events[n], o, remote)
  }

  ghost predicate InferSentAt(size: Ledger -> nat, s: System, events: seq<Event>, n: nat, o: Owner, key: InferKey) {
    n < |events| && SendsInfer(Run(size, s, events[..n]), events[n], o, key)
  }

  ghost predicate CreateSentAt(size: Ledger -> nat, s: System, events: seq<Event>, n: nat, o: Owner, remote: string) {
    n < |events| && SendsCreate(Run(size, s, events[..n]), events[n], o, remote)
  }

  /** The intent of this inference was written before the event that sent it. */
  ghost predicate IntendedFirst(size: Ledger -> nat, s: System, events: seq<Event>, n: nat, m: nat, o: Owner, key: InferKey) {
    n < m && IntentWritten(size, s, events, n, o, key) && InferSentAt(size, s, events, m, o, key)
  }

  /** The intent to create this session was written before the event that sent the creation. */
  ghost predicate CreationFirst(size: Ledger -> nat, s: System, events: seq<Event>, n: nat, m: nat, o: Owner, remote: string) {
    n < m && CreationWritten(size, s, events, n, o, remote) && CreateSentAt(size, s, events, m, o, remote)
  }

  lemma PrefixPrefix(events: seq<Event>, last: nat, n: nat)
    requires n <= last <= |events|
    ensures events[..last][..n] == events[..n]
  {
  }

  lemma WrittenBefore(size: Ledger -> nat, s: System, events: seq<Event>, last: nat, o: Owner, key: InferKey)
    requires last <= |events| && exists n: nat :: IntentWritten(size, s, events[..last], n, o, key)
    ensures exists n: nat :: IntentWritten(size, s, events, n, o, key)
  {
    var n: nat :| IntentWritten(size, s, events[..last], n, o, key);
    PrefixPrefix(events, last, n);
    assert IntentWritten(size, s, events, n, o, key);
  }

  lemma CreatedBefore(size: Ledger -> nat, s: System, events: seq<Event>, last: nat, o: Owner, remote: string)
    requires last <= |events| && exists n: nat :: CreationWritten(size, s, events[..last], n, o, remote)
    ensures exists n: nat :: CreationWritten(size, s, events, n, o, remote)
  {
    var n: nat :| CreationWritten(size, s, events[..last], n, o, remote);
    PrefixPrefix(events, last, n);
    assert CreationWritten(size, s, events, n, o, remote);
  }

  predicate IntendsCreation(m: Session, remote: string) {
    m.createState.CreateIntent? && m.remoteID == remote
  }

  lemma NewIntentWritten(size: Ledger -> nat, s: System, e: Event, o: Owner, key: InferKey)
    requires SystemInv(s) && !IntentAt(Before(s.b.disk, o), key.prompt, key.seqNo)
    requires IntentAt(Before(Apply(size, s, e).b.disk, o), key.prompt, key.seqNo)
    ensures WritesIntent(size, s, e, o, key)
  {
    AuthorityKept(size, s, e);
    var l := Apply(size, s, e).b.disk;
    assert Record(l, o, l.sessions[o]);
  }

  lemma NewCreationWritten(size: Ledger -> nat, s: System, e: Event, o: Owner, remote: string)
    requires SystemInv(s) && !IntendsCreation(Before(s.b.disk, o), remote)
    requires IntendsCreation(Before(Apply(size, s, e).b.disk, o), remote)
    ensures WritesCreation(size, s, e, o, remote)
  {
    AuthorityKept(size, s, e);
    var l := Apply(size, s, e).b.disk;
    assert Record(l, o, l.sessions[o]);
  }

  lemma {:induction false} IntentOrigin(size: Ledger -> nat, s: System, events: seq<Event>, o: Owner, key: InferKey)
    requires RunInv(s) && s.b.disk.sessions == map[]
    requires IntentAt(Before(Run(size, s, events).b.disk, o), key.prompt, key.seqNo)
    ensures exists n: nat :: IntentWritten(size, s, events, n, o, key)
  {
    hide Apply, ProcStep, OwnerInv, ReserveStep, WorkerStep, RestartStep, SessionAdvances, ReserveNext, WritesIntent;
    if events != [] {
      var last := |events| - 1;
      var u := Run(size, s, events[..last]);
      if IntentAt(Before(u.b.disk, o), key.prompt, key.seqNo) {
        IntentOrigin(size, s, events[..last], o, key);
        WrittenBefore(size, s, events, last, o, key);
      } else {
        RunKeeps(size, s, events[..last]);
        NewIntentWritten(size, u, events[last], o, key);
        assert IntentWritten(size, s, events, last, o, key);
      }
    }
  }

  lemma {:induction false} CreationOrigin(size: Ledger -> nat, s: System, events: seq<Event>, o: Owner, remote: string)
    requires RunInv(s) && s.b.disk.sessions == map[]
    requires IntendsCreation(Before(Run(size, s, events).b.disk, o), remote)
    ensures exists n: nat :: CreationWritten(size, s, events, n, o, remote)
  {
    hide Apply, ProcStep, OwnerInv, ReserveStep, ReserveNext, WorkerStep, SessionAdvances, WritesCreation;
    if events != [] {
      var last := |events| - 1;
      var u := Run(size, s, events[..last]);
      if IntendsCreation(Before(u.b.disk, o), remote) {
        CreationOrigin(size, s, events[..last], o, remote);
        CreatedBefore(size, s, events, last, o, remote);
      } else {
        RunKeeps(size, s, events[..last]);
        NewCreationWritten(size, u, events[last], o, remote);
        assert CreationWritten(size, s, events, last, o, remote);
      }
    }
  }

  /** A request of `o` stays what it is or goes, and owner `x`, if another, does not see it. */
  ghost predicate OwnOnly(s: System, t: System, o: Owner, x: Owner) {
    && (o in t.procs ==> o in s.procs && KeyOf(t.procs[o]) == KeyOf(s.procs[o]))
    && (x != o ==> ProcOf(t, x) == ProcOf(s, x) && WorldOf(t, x) == WorldOf(s, x))
  }

  lemma SetsOwnOnly(s: System, o: Owner, x: Owner, w: World, pc: Pc)
    requires o in s.procs
    ensures OwnOnly(s, s, o, x) && OwnOnly(s, SetPc(s, o, pc), o, x)
    ensures o in SetWorld(s, o, w).procs && OwnOnly(s, SetPc(SetWorld(s, o, w), o, pc), o, x)
  {
  }

  lemma CommitOwnOnly(size: Ledger -> nat, s: System, w: World, ordinary: bool, o: Owner, next: Result<Session, Error>,
                      io: Io, done: Pc, failed: Pc, x: Owner)
    requires o in s.procs
    ensures o in SetWorld(s, o, w).procs
    ensures OwnOnly(s, ProcCommit(size, s, ordinary, o, next, io, done, failed), o, x)
    ensures OwnOnly(s, ProcCommit(size, SetWorld(s, o, w), ordinary, o, next, io, done, failed), o, x)
  {
    hide CommitSession;
  }

  lemma ProcOwnOnly(size: Ledger -> nat, s: System, o: Owner, e: ProcEvent, x: Owner)
    requires CanStep(s, o)
    ensures OwnOnly(s, ProcStep(size, s, o, e), o, x)
  {
    hide CommitSession, CreateIntentChange, InferIntentChange, IdentityChange, CompleteChange, FinishChange, RefusalChange, CreateResultChange, AliasValid, IdentifierValid, FreshAliases, UuidValid, FinishInvocation, FreshRemote, SentInfer, SentCreate, AckedCreate, AckedInfer, RefusedInfer, RefusedCreate, SetPc, SetWorld, ProcCommit, OwnOnly, WorldOf;
    SetsOwnOnly(s, o, x, NOTHING, Started);
    forall pc ensures OwnOnly(s, SetPc(s, o, pc), o, x) { SetsOwnOnly(s, o, x, NOTHING, pc); }
    forall w, pc ensures o in SetWorld(s, o, w).procs && OwnOnly(s, SetPc(SetWorld(s, o, w), o, pc), o, x) {
      SetsOwnOnly(s, o, x, w, pc);
    }
    forall ordinary, next, io, done, failed
      ensures OwnOnly(s, ProcCommit(size, s, ordinary, o, next, io, done, failed), o, x)
    {
      CommitOwnOnly(size, s, NOTHING, ordinary, o, next, io, done, failed, x);
    }
    forall w, ordinary, next, io, done, failed
      ensures o in SetWorld(s, o, w).procs
      ensures OwnOnly(s, ProcCommit(size, SetWorld(s, o, w), ordinary, o, next, io, done, failed), o, x)
    {
      CommitOwnOnly(size, s, w, ordinary, o, next, io, done, failed, x);
    }
    if e.Finish? && s.procs[o].pc.Ended? { FinishOwnOnly(size, s, o, e.io, x); }
  }

  lemma FinishOwnOnly(size: Ledger -> nat, s: System, o: Owner, io: Io, x: Owner)
    requires CanStep(s, o) && s.procs[o].pc.Ended?
    ensures OwnOnly(s, ProcStep(size, s, o, Finish(io)), o, x)
  {
    hide FinishInvocation, HasInvocation;
  }

  /** What a step adds to the requests sent for an owner, when it leaves no prompt unfinished. */
  ghost predicate Sends(w: World, v: World, infers: set<InferKey>, creates: set<string>) {
    && v.infers.Keys == w.infers.Keys + infers && v.creates.Keys == w.creates.Keys + creates
    && v.continued == w.continued && v.unfinished == w.unfinished
  }

  lemma WorldSends(w: World, p: Proc, remote: string)
    ensures Sends(w, w, {}, {}) && Sends(w, SentInfer(w, p), {KeyOf(p)}, {}) && Sends(w, SentCreate(w, remote), {}, {remote})
    ensures Sends(w, AckedCreate(w, remote), {}, {}) && Sends(w, RefusedCreate(w, remote), {}, {})
    ensures Sends(w, AckedInfer(w, KeyOf(p)), {}, {}) && Sends(w, RefusedInfer(w, KeyOf(p)), {}, {})
  {
  }

  lemma SetsWorld(s: System, o: Owner, w: World, pc: Pc)
    requires o in s.procs
    ensures WorldOf(SetPc(s, o, pc), o) == WorldOf(s, o)
    ensures o in SetWorld(s, o, w).procs && WorldOf(SetPc(SetWorld(s, o, w), o, pc), o) == w
  {
  }

  lemma CommitWorld(size: Ledger -> nat, s: System, w: World, ordinary: bool, o: Owner, next: Result<Session, Error>,
                    io: Io, done: Pc, failed: Pc)
    requires o in s.procs
    ensures WorldOf(ProcCommit(size, s, ordinary, o, next, io, done, failed), o) == WorldOf(s, o)
    ensures o in SetWorld(s, o, w).procs
    ensures WorldOf(ProcCommit(size, SetWorld(s, o, w), ordinary, o, next, io, done, failed), o) == w
  {
    hide CommitSession;
  }

  /** A step that commits sends nothing. */
  lemma CommitSends(size: Ledger -> nat, s: System, o: Owner, e: ProcEvent)
    requires CanStep(s, o) && Commits(e) && !e.Identity? && !(e.Finish? && s.procs[o].pc.Ended?)
    ensures Sends(WorldOf(s, o), WorldOf(ProcStep(size, s, o, e), o), {}, {})
  {
    hide CommitSession, CreateIntentChange, InferIntentChange, IdentityChange, CompleteChange, FinishChange, RefusalChange, CreateResultChange, AliasValid, IdentifierValid, FreshAliases, UuidValid, FinishInvocation, FreshRemote, RequestCancelled, AckedInfer, SetPc, SetWorld, ProcCommit, WorldOf, Sends;
    forall ordinary, next, io, done, failed
      ensures WorldOf(ProcCommit(size, s, ordinary, o, next, io, done, failed), o) == WorldOf(s, o)
    {
      CommitWorld(size, s, NOTHING, ordinary, o, next, io, done, failed);
    }
    WorldSends(WorldOf(s, o), s.procs[o], "");
  }

  lemma IdentitySends(size: Ledger -> nat, s: System, o: Owner, e: ProcEvent)
    requires CanStep(s, o) && e.Identity?
    ensures Sends(WorldOf(s, o), WorldOf(ProcStep(size, s, o, e), o), {}, {})
  {
    hide CommitSession, CreateIntentChange, InferIntentChange, IdentityChange, CompleteChange, FinishChange, RefusalChange, CreateResultChange, AliasValid, IdentifierValid, FreshAliases, UuidValid, FinishInvocation, FreshRemote, RequestCancelled, AckedInfer, SetPc, SetWorld, ProcCommit, WorldOf, Sends;
    SetsWorld(s, o, NOTHING, Ended(AcceptanceUnknown));
    forall w, ordinary, next, io, done, failed
      ensures o in SetWorld(s, o, w).procs
      ensures WorldOf(ProcCommit(size, SetWorld(s, o, w), ordinary, o, next, io, done, failed), o) == w
    {
      CommitWorld(size, s, w, ordinary, o, next, io, done, failed);
    }
    WorldSends(WorldOf(s, o), s.procs[o], "");
  }

  lemma SilentSends(size: Ledger -> nat, s: System, o: Owner, e: ProcEvent)
    requires CanStep(s, o) && !Commits(e)
    ensures Sends(WorldOf(s, o), WorldOf(ProcStep(size, s, o, e), o),
                  if e.SendInfer? && s.procs[o].pc.InferReady? then {KeyOf(s.procs[o])} else {},
                  if e.SendCreate? && s.procs[o].pc.CreateReady? then {s.procs[o].pc.remote} else {})
  {
    hide CommitSession, CreateIntentChange, InferIntentChange, IdentityChange, CompleteChange, FinishChange, RefusalChange, CreateResultChange, AliasValid, IdentifierValid, FreshAliases, UuidValid, FinishInvocation, FreshRemote, RequestCancelled, SentInfer, SentCreate, AckedCreate, AckedInfer, RefusedInfer, RefusedCreate, KeyOf, SetPc, SetWorld, ProcCommit, WorldOf, Sends;
    forall pc ensures WorldOf(SetPc(s, o, pc), o) == WorldOf(s, o) { SetsWorld(s, o, NOTHING, pc); }
    forall w, pc ensures o in SetWorld(s, o, w).procs && WorldOf(SetPc(SetWorld(s, o, w), o, pc), o) == w {
      SetsWorld(s, o, w, pc);
    }
    var pc := s.procs[o].pc;
    WorldSends(WorldOf(s, o), s.procs[o], if pc.CreateReady? || pc.CreateSent? then pc.remote else "");
  }

  /** What a step of a request sends, unless the step is its end. */
  lemma ProcSends(size: Ledger -> nat, s: System, o: Owner, e: ProcEvent)
    requires CanStep(s, o) && !(e.Finish? && s.procs[o].pc.Ended?)
    ensures Sends(WorldOf(s, o), WorldOf(ProcStep(size, s, o, e), o),
                  if e.SendInfer? && s.procs[o].pc.InferReady? then {KeyOf(s.procs[o])} else {},
                  if e.SendCreate? && s.procs[o].pc.CreateReady? then {s.procs[o].pc.remote} else {})
  {
    hide ProcStep, Sends, HasInvocation;
    if e.Identity? { IdentitySends(size, s, o, e); } else if Commits(e) { CommitSends(size, s, o, e); } else { SilentSends(size, s, o, e); }
  }

  lemma EndSends(size: Ledger -> nat, s: System, o: Owner, io: Io)
    requires CanStep(s, o) && s.procs[o].pc.Ended?
    ensures var w, v := WorldOf(s, o), WorldOf(ProcStep(size, s, o, Finish(io)), o);
            v.infers == w.infers && v.creates == w.creates && v.continued == w.continued && w.unfinished <= v.unfinished
  {
    hide FinishInvocation, HasInvocation;
  }

  lemma ProcSendsInfer(size: Ledger -> nat, s: System, o: Owner, e: ProcEvent)
    requires CanStep(s, o)
    ensures WorldOf(ProcStep(size, s, o, e), o).infers.Keys
            == WorldOf(s, o).infers.Keys + (if e.SendInfer? && s.procs[o].pc.InferReady? then {KeyOf(s.procs[o])} else {})
  {
    hide ProcStep, HasInvocation;
    if e.Finish? && s.procs[o].pc.Ended? { EndSends(size, s, o, e.io); } else { ProcSends(size, s, o, e); }
  }

  lemma ProcSendsCreate(size: Ledger -> nat, s: System, o: Owner, e: ProcEvent)
    requires CanStep(s, o)
    ensures WorldOf(ProcStep(size, s, o, e), o).creates.Keys
            == WorldOf(s, o).creates.Keys + (if e.SendCreate? && s.procs[o].pc.CreateReady? then {s.procs[o].pc.remote} else {})
  {
    hide ProcStep, HasInvocation;
    if e.Finish? && s.procs[o].pc.Ended? { EndSends(size, s, o, e.io); } else { ProcSends(size, s, o, e); }
  }

  lemma ProcElsewhere(size: Ledger -> nat, s: System, o: Owner, e: ProcEvent, x: Owner)
    requires CanStep(s, o) && x != o
    ensures WorldOf(ProcStep(size, s, o, e), x) == WorldOf(s, x)
  {
    hide ProcStep;
    ProcOwnOnly(size, s, o, e, x);
  }

  /** A worker sends nothing for a request, and touches neither requests nor what is counted of them. */
  ghost predicate SendsNothing(s: System, t: System, o: Owner) {
    var w, v := WorldOf(s, o), WorldOf(t, o);
    && t.procs == s.procs && v.infers.Keys == w.infers.Keys && v.creates == w.creates
    && v.unfinished == w.unfinished && v.continued == w.continued
  }

  lemma StageSends(s: System, o: Owner, w: World, stage: WorkerStage)
    requires o in s.workers && SendsNothing(s, SetWorld(s, o, w), o)
    ensures SetWorld(s, o, w).workers == s.workers
    ensures SendsNothing(s, SetStage(SetWorld(s, o, w), o, stage), o) && SendsNothing(s, DropWorker(SetWorld(s, o, w), o), o)
    ensures SendsNothing(s, SetStage(s, o, stage), o)
  {
  }

  lemma DropSends(s: System, o: Owner, b: Broker)
    ensures SendsNothing(s, s, o) && SendsNothing(s, DropWorker(s, o), o) && SendsNothing(s, DropWorker(s.(b := b), o), o)
  {
  }

  lemma QuietedSends(s: System, o: Owner, m: Session, active: bool, gone: set<string>)
    ensures var w := Quieted(WorldOf(s, o), m, active);
            SendsNothing(s, SetWorld(s, o, w), o) && SendsNothing(s, SetWorld(s, o, w.(gone := gone)), o)
  {
  }

  lemma WorkerSends(size: Ledger -> nat, s: System, o: Owner, e: WorkerEvent)
    requires o in s.workers && o in s.b.mem.sessions
    ensures SendsNothing(s, WorkerStep(size, s, o, e), o)
  {
    hide CommitSession, CleanupChange, Quieted, WorldOf, SetWorld, SetStage, DropWorker, SendsNothing, MayDelete, MustStop, RestsQuiet;
    var w, active := Quieted(WorldOf(s, o), s.b.mem.sessions[o], o in s.b.active), o in s.b.active;
    var gone := WorldOf(s, o).gone + {s.workers[o].remote};
    QuietedSends(s, o, s.b.mem.sessions[o], active, gone);
    DropSends(s, o, s.b);
    match e
    case DeleteConfirmed => StageSends(s, o, w.(gone := gone), Evidence(DeletedGone));
    case CommitCleanup(_) =>
      forall b ensures SendsNothing(s, DropWorker(s.(b := b), o), o) { DropSends(s, o, b); }
    case _ =>
      forall stage ensures SendsNothing(s, SetStage(s, o, stage), o) { StageSends(s, o, w, stage); }
      StageSends(s, o, w, Evidence(StopIdle));
  }

  lemma WorkerElsewhere(size: Ledger -> nat, s: System, o: Owner, e: WorkerEvent, x: Owner)
    requires o in s.workers && o in s.b.mem.sessions && x != o
    ensures WorldOf(WorkerStep(size, s, o, e), x) == WorldOf(s, x)
  {
  }

  lemma QuietEvent(size: Ledger -> nat, s: System, e: Event)
    requires !e.ProcMoves? && !e.WorkerMoves? && !e.Reserving?
    ensures Apply(size, s, e).worlds == s.worlds
  {
    hide Sweep, Control, CloseOwnerPrompt, PinPrincipal, Reopen, LedgerValid, ParsedContext, ProcStep, WorkerStep, ReserveStep, DigestValid, HasInvocation;
  }

  lemma QuietProcs(size: Ledger -> nat, s: System, e: Event)
    requires !e.ProcMoves? && !e.WorkerMoves? && !e.Reserving?
    ensures Apply(size, s, e).procs == s.procs || Apply(size, s, e).procs == map[]
  {
    hide Sweep, Control, CloseOwnerPrompt, PinPrincipal, Reopen, LedgerValid, ParsedContext, ProcStep, WorkerStep, ReserveStep, DigestValid, HasInvocation;
  }

  ghost predicate SendsInfer(s: System, e: Event, o: Owner, key: InferKey) {
    e == ProcMoves(o, SendInfer) && o in s.procs && s.procs[o].pc.InferReady? && KeyOf(s.procs[o]) == key
  }

  ghost predicate SendsCreate(s: System, e: Event, o: Owner, remote: string) {
    e == ProcMoves(o, SendCreate) && o in s.procs && s.procs[o].pc == CreateReady(remote)
  }

  lemma ProcEventSends(size: Ledger -> nat, s: System, x: Owner, step: ProcEvent, o: Owner)
    requires CanStep(s, x)
    ensures var w, v := WorldOf(s, o), WorldOf(ProcStep(size, s, x, step), o);
            && (forall key :: key in v.infers && key !in w.infers ==> SendsInfer(s, ProcMoves(x, step), o, key))
            && (forall r :: r in v.creates && r !in w.creates ==> SendsCreate(s, ProcMoves(x, step), o, r))
  {
    if x == o {
      ProcSendsInfer(size, s, o, step);
      ProcSendsCreate(size, s, o, step);
    } else {
      ProcElsewhere(size, s, x, step, o);
    }
  }

  lemma ProcMovesApply(size: Ledger -> nat, s: System, o: Owner, step: ProcEvent)
    ensures Apply(size, s, ProcMoves(o, step)) == if CanStep(s, o) then ProcStep(size, s, o, step) else s
  {
    hide ProcStep, HasInvocation;
  }

  lemma WorkerMovesApply(size: Ledger -> nat, s: System, o: Owner, move: WorkerEvent)
    ensures Apply(size, s, WorkerMoves(o, move))
            == if s.up && o in s.workers && o in s.b.mem.sessions then WorkerStep(size, s, o, move) else s
  {
    hide WorkerStep;
  }

  lemma ReservingApply(size: Ledger -> nat, s: System, c: Context, r: Request, normal: bool, at: int, io: Io)
    ensures Apply(size, s, Reserving(c, r, normal, at, io))
            == if s.up && 0 < at <= s.now && ParsedContext(Responses, c, at) then ReserveStep(size, s, c, r, normal, io) else s
  {
    hide ReserveStep, ParsedContext;
  }

  lemma EventSends(size: Ledger -> nat, s: System, e: Event, o: Owner)
    ensures var w, v := WorldOf(s, o), WorldOf(Apply(size, s, e), o);
            && (forall key :: key in v.infers && key !in w.infers ==> SendsInfer(s, e, o, key))
            && (forall r :: r in v.creates && r !in w.creates ==> SendsCreate(s, e, o, r))
  {
    hide Apply, ParsedContext, ReserveStep, ProcStep, WorkerStep, HasInvocation;
    match e
    case ProcMoves(x, step) =>
      ProcMovesApply(size, s, x, step);
      if CanStep(s, x) { ProcEventSends(size, s, x, step, o); }
    case WorkerMoves(x, move) =>
      WorkerMovesApply(size, s, x, move);
      if s.up && x in s.workers && x in s.b.mem.sessions {
        if x == o { WorkerSends(size, s, x, move); } else { WorkerElsewhere(size, s, x, move, o); }
      }
    case Reserving(c, r, normal, at, io) =>
      ReservingApply(size, s, c, r, normal, at, io);
      ReserveShape(size, s, c, r, normal, io);
    case _ => QuietEvent(size, s, e);
  }

  /** What is newly sent is sent by this event, and was intended, on disk, before. */
  lemma SentNow(size: Ledger -> nat, s: System, e: Event, o: Owner)
    requires RunInv(s)
    ensures var w, v, m := WorldOf(s, o), WorldOf(Apply(size, s, e), o), Before(s.b.disk, o);
            && (forall key :: key in v.infers && key !in w.infers ==>
                  IntentAt(m, key.prompt, key.seqNo) && SendsInfer(s, e, o, key))
            && (forall r :: r in v.creates && r !in w.creates ==> IntendsCreation(m, r) && SendsCreate(s, e, o, r))
  {
    hide Apply, SystemInv, SendsInfer, SendsCreate, IntentAt, IntendsCreation;
    NewlySent(size, s, e, o);
    EventSends(size, s, e, o);
  }

  lemma NewlySent(size: Ledger -> nat, s: System, e: Event, o: Owner)
    requires SystemInv(s)
    ensures var w, v, m := WorldOf(s, o), WorldOf(Apply(size, s, e), o), Before(s.b.disk, o);
            && (forall key :: key in v.infers && key !in w.infers ==> IntentAt(m, key.prompt, key.seqNo))
            && (forall r :: r in v.creates && r !in w.creates ==> IntendsCreation(m, r))
  {
    hide Apply, ProcStep, OwnerInv;
    EventSends(size, s, e, o);
    if o in s.procs { SendingIntended(s, o); }
  }

  lemma SendingIntended(s: System, o: Owner)
    requires SystemInv(s) && o in s.procs
    ensures s.procs[o].pc.InferReady? ==> IntentAt(Before(s.b.disk, o), s.procs[o].prompt, s.procs[o].seqNo)
    ensures s.procs[o].pc.CreateReady? ==>
              IntendsCreation(Before(s.b.disk, o), s.procs[o].pc.remote)
  {
    hide SessionSound, SessionWorld, SideInv, LedgerInv, WorkerFacts;
    assert OwnerInv(s, o);
    OwnerSides(s, o);
    RecordNow(s, o, s.b.disk.sessions[o]);
  }

  lemma IntendedLater(size: Ledger -> nat, s: System, events: seq<Event>, last: nat, n: nat, m: nat, o: Owner, key: InferKey)
    requires last <= |events| && IntendedFirst(size, s, events[..last], n, m, o, key)
    ensures IntendedFirst(size, s, events, n, m, o, key)
  {
    hide Run, WritesIntent, SendsInfer;
    PrefixPrefix(events, last, n);
    PrefixPrefix(events, last, m);
  }

  lemma CreatedLater(size: Ledger -> nat, s: System, events: seq<Event>, last: nat, n: nat, m: nat, o: Owner, remote: string)
    requires last <= |events| && CreationFirst(size, s, events[..last], n, m, o, remote)
    ensures CreationFirst(size, s, events, n, m, o, remote)
  {
    hide Run, WritesCreation, SendsCreate;
    PrefixPrefix(events, last, n);
    PrefixPrefix(events, last, m);
  }

  /**
   Every inference ever sent was sent after its intent was on disk, and that intent was written by
   an earlier event, by a live request while the prompt was open and its lease had not run out.
   */
  lemma {:induction false} DispatchAuthorized(size: Ledger -> nat, s: System, events: seq<Event>, o: Owner, key: InferKey)
    requires RunInv(s) && s.b.disk.sessions == map[] && key !in WorldOf(s, o).infers
    requires key in WorldOf(Run(size, s, events), o).infers
    ensures exists n: nat, m: nat :: IntendedFirst(size, s, events, n, m, o, key)
  {
    hide Apply, WritesIntent, RunInv;
    var last := |events| - 1;
    var u := Run(size, s, events[..last]);
    if key in WorldOf(u, o).infers {
      DispatchAuthorized(size, s, events[..last], o, key);
      var n: nat, m: nat :| IntendedFirst(size, s, events[..last], n, m, o, key);
      IntendedLater(size, s, events, last, n, m, o, key);
    } else {
      RunKeeps(size, s, events[..last]);
      SentNow(size, u, events[last], o);
      IntentOrigin(size, s, events[..last], o, key);
      var n: nat :| IntentWritten(size, s, events[..last], n, o, key);
      PrefixPrefix(events, last, n);
      assert IntendedFirst(size, s, events, n, last, o, key);
    }
  }

  /** Every session creation ever sent was sent after its authorized intent was on disk. */
  lemma {:induction false} CreationAuthorized(size: Ledger -> nat, s: System, events: seq<Event>, o: Owner, remote: string)
    requires RunInv(s) && s.b.disk.sessions == map[] && remote !in WorldOf(s, o).creates
    requires remote in WorldOf(Run(size, s, events), o).creates
    ensures exists n: nat, m: nat :: CreationFirst(size, s, events, n, m, o, remote)
  {
    hide Apply, WritesCreation, RunInv;
    var last := |events| - 1;
    var u := Run(size, s, events[..last]);
    if remote in WorldOf(u, o).creates {
      CreationAuthorized(size, s, events[..last], o, remote);
      var n: nat, m: nat :| CreationFirst(size, s, events[..last], n, m, o, remote);
      CreatedLater(size, s, events, last, n, m, o, remote);
    } else {
      RunKeeps(size, s, events[..last]);
      SentNow(size, u, events[last], o);
      CreationOrigin(size, s, events[..last], o, remote);
      var n: nat :| CreationWritten(size, s, events[..last], n, o, remote);
      PrefixPrefix(events, last, n);
      assert CreationFirst(size, s, events, n, last, o, remote);
    }
  }

  // ---------------------------------------------------------------------------
  // After a restart
  // ---------------------------------------------------------------------------

  /** Prompt `k` has no request, and once the broker is up it can get none. */
  ghost predicate Abandoned(s: System, o: Owner, k: PromptKey) {
    && (o in s.procs ==> s.procs[o].prompt != k)
    && o in s.b.mem.sessions && k in s.b.mem.sessions[o].prompts
    && (s.up ==> s.b.mem.sessions[o].prompts[k].closing || s.b.mem.sessions[o].prompts[k].settled)
  }

  lemma ClosedNotReserved(m: Session, c: Context, r: Request, normal: bool, now: int)
    requires c.prompt in m.prompts && (m.prompts[c.prompt].closing || m.prompts[c.prompt].settled)
    ensures ReserveChange(m, c, r, normal, now).Err?
  {
    if ReserveChange(m, c, r, normal, now).Ok? { ReserveStages(m, c, r, normal, now); }
  }

  lemma ProcStepProcs(size: Ledger -> nat, s: System, x: Owner, e: ProcEvent, o: Owner)
    requires CanStep(s, x) && o in ProcStep(size, s, x, e).procs
    ensures o in s.procs && KeyOf(ProcStep(size, s, x, e).procs[o]) == KeyOf(s.procs[o])
  {
    hide ProcStep;
    ProcOwnOnly(size, s, x, e, o);
  }

  lemma WorkerStepProcs(size: Ledger -> nat, s: System, x: Owner, e: WorkerEvent)
    requires x in s.workers && x in s.b.mem.sessions
    ensures WorkerStep(size, s, x, e).procs == s.procs
  {
    hide WorkerStep;
    WorkerSends(size, s, x, e);
  }

  /** Two records that differ in one invocation at most, and in what is open. */
  ghost predicate OnlyAt(m: Session, n: Session, key: InferKey) {
    && n.prompts.Keys == m.prompts.Keys
    && forall k :: k in m.prompts ==>
         && n.prompts[k].lastSequence == m.prompts[k].lastSequence
         && n.prompts[k].invocations.Keys == m.prompts[k].invocations.Keys
         && forall q :: q in m.prompts[k].invocations && InferKey(k, q) != key ==>
              n.prompts[k].invocations[q] == m.prompts[k].invocations[q]
  }

  lemma PromptsOnly(m: Session, n: Session, key: InferKey)
    requires n.prompts == m.prompts
    ensures OnlyAt(m, n, key)
  {
  }

  lemma PutOnly(m: Session, n: Session, k: PromptKey, q: nat)
    requires HasInvocation(m, k, q) && k in n.prompts && n.prompts == m.prompts[k := n.prompts[k]]
    requires n.prompts[k].lastSequence == m.prompts[k].lastSequence && q in n.prompts[k].invocations
    requires n.prompts[k].invocations == m.prompts[k].invocations[q := n.prompts[k].invocations[q]]
    ensures OnlyAt(m, n, InferKey(k, q))
  {
  }

  lemma CompletedOnly(m: Session, k: PromptKey, q: nat, r: Summary, aliases: seq<string>, now: int)
    requires HasInvocation(m, k, q) && |aliases| == |r.calls| && CompleteChange(m, k, q, r, aliases, now).Ok?
    ensures OnlyAt(m, CompleteChange(m, k, q, r, aliases, now).value, InferKey(k, q))
  {
    hide CompleteChange, OnlyAt;
    CompleteStages(m, k, q, r, aliases, now);
    PutOnly(m, CompleteChange(m, k, q, r, aliases, now).value, k, q);
  }

  lemma FinishedOnly(m: Session, k: PromptKey, q: nat, outcome: Outcome)
    requires HasInvocation(m, k, q)
    ensures OnlyAt(m, FinishChange(m, k, q, outcome), InferKey(k, q))
  {
    hide OnlyAt, FinalState;
    PutOnly(m, FinishChange(m, k, q, outcome), k, q);
  }

  /** A request changes its own invocation and no other. */
  lemma ProcOnly(s: System, o: Owner, e: ProcEvent)
    requires CanStep(s, o) && ProcNext(s, o, e).Some? && ProcNext(s, o, e).value.Ok?
    ensures OnlyAt(s.b.mem.sessions[o], ProcNext(s, o, e).value.value, KeyOf(s.procs[o]))
  {
    hide OnlyAt, CompleteChange, FinishChange, FreshAliases, IdentifierValid, AliasValid, RequestCancelled;
    var p, m := s.procs[o], s.b.mem.sessions[o];
    match e
    case CommitCreateIntent(_, _) => PromptsOnly(m, ProcNext(s, o, e).value.value, KeyOf(p));
    case CommitCreateResult(_) => PromptsOnly(m, ProcNext(s, o, e).value.value, KeyOf(p));
    case CommitInferIntent(_) => PutOnly(m, ProcNext(s, o, e).value.value, p.prompt, p.seqNo);
    case CommitRefusal(_) => PutOnly(m, ProcNext(s, o, e).value.value, p.prompt, p.seqNo);
    case Identity(_, _, _, _) => PutOnly(m, ProcNext(s, o, e).value.value, p.prompt, p.seqNo);
    case Complete(r, aliases, _) => CompletedOnly(m, p.prompt, p.seqNo, r, aliases, s.now);
    case Finish(_) => FinishedOnly(m, p.prompt, p.seqNo, p.pc.outcome);
    case _ =>
  }

  /** Requests come from admission only, and keep their prompt and sequence number. */
  lemma ProcsFrom(size: Ledger -> nat, s: System, e: Event, o: Owner)
    requires o in Apply(size, s, e).procs
    ensures || (o in s.procs && KeyOf(Apply(size, s, e).procs[o]) == KeyOf(s.procs[o]))
            || (e.Reserving? && s.up && !s.b.poisoned && e.context.owner == o
                && KeyOf(Apply(size, s, e).procs[o]) == InferKey(e.context.prompt, e.context.sequence)
                && ReserveNext(s.b.mem, e.context, e.request, e.outputsNormal, s.now).Ok?)
  {
    hide Apply, ProcStep, WorkerStep, ReserveStep, ReserveNext, HasInvocation, ParsedContext;
    match e
    case Reserving(c, r, normal, at, io) =>
      ReservingApply(size, s, c, r, normal, at, io);
      ReserveShape(size, s, c, r, normal, io);
      ReserveBrokerShape(size, s.b, c, r, normal, s.now, io);
    case ProcMoves(x, step) =>
      ProcMovesApply(size, s, x, step);
      if CanStep(s, x) { ProcStepProcs(size, s, x, step, o); }
    case WorkerMoves(x, move) =>
      WorkerMovesApply(size, s, x, move);
      if s.up && x in s.workers && x in s.b.mem.sessions { WorkerStepProcs(size, s, x, move); }
    case _ => QuietProcs(size, s, e);
  }

  lemma ReopenRecovers(size: Ledger -> nat, disk: Ledger, io: Io)
    requires Reopen(size, disk, io).1.Ok?
    ensures Reopen(size, disk, io).0.mem == Recovered(disk)
  {
  }

  lemma RestartCloses(size: Ledger -> nat, s: System, io: Io, o: Owner, k: PromptKey)
    requires !s.up && s.b.mem == s.b.disk && o in s.b.mem.sessions && k in s.b.mem.sessions[o].prompts
    requires RestartStep(size, s, io).up
    ensures var t := RestartStep(size, s, io);
            o in t.b.mem.sessions && k in t.b.mem.sessions[o].prompts
            && (t.b.mem.sessions[o].prompts[k].closing || t.b.mem.sessions[o].prompts[k].settled)
  {
    hide LedgerValid, SessionAccepted, SessionTexts, Reopen;
    ReopenRecovers(size, s.b.disk, io);
    var m := Recovered(s.b.disk);
    assert m.sessions[o] == RecoverPrompts(s.b.disk.sessions[o]);
  }

  lemma StaysClosed(s: System, t: System, o: Owner, k: PromptKey)
    requires Forward(s.b.mem, t.b.mem) && o in s.b.mem.sessions && k in s.b.mem.sessions[o].prompts
    ensures o in t.b.mem.sessions && k in t.b.mem.sessions[o].prompts
    ensures s.b.mem.sessions[o].prompts[k].closing ==> t.b.mem.sessions[o].prompts[k].closing
    ensures s.b.mem.sessions[o].prompts[k].settled ==> t.b.mem.sessions[o].prompts[k].settled
  {
    assert Record(s.b.mem, o, s.b.mem.sessions[o]) && Record(t.b.mem, o, t.b.mem.sessions[o]);
    assert PromptAdvances(s.b.mem.sessions[o].prompts[k], t.b.mem.sessions[o].prompts[k]);
  }

  lemma RestartAbandons(size: Ledger -> nat, s: System, e: Event, o: Owner, k: PromptKey)
    requires SystemInv(s) && !s.up && Apply(size, s, e).up && o in s.b.mem.sessions && k in s.b.mem.sessions[o].prompts
    ensures var t := Apply(size, s, e);
            o in t.b.mem.sessions && k in t.b.mem.sessions[o].prompts
            && (t.b.mem.sessions[o].prompts[k].closing || t.b.mem.sessions[o].prompts[k].settled)
  {
    RestartCloses(size, s, e.io, o, k);
  }

  lemma NoRequestFor(size: Ledger -> nat, s: System, e: Event, o: Owner, k: PromptKey)
    requires Abandoned(s, o, k) && o in Apply(size, s, e).procs
    ensures Apply(size, s, e).procs[o].prompt != k
  {
    hide Apply;
    ProcsFrom(size, s, e, o);
    if e.Reserving? && s.up && e.context.owner == o && e.context.prompt == k {
      ClosedNotReserved(s.b.mem.sessions[o], e.context, e.request, e.outputsNormal, s.now);
    }
  }

  lemma AbandonedStays(size: Ledger -> nat, s: System, e: Event, o: Owner, k: PromptKey)
    requires RunInv(s) && Abandoned(s, o, k)
    ensures Abandoned(Apply(size, s, e), o, k)
  {
    hide Apply, Forward;
    var t := Apply(size, s, e);
    ApplyKeeps(size, s, e);
    StepForward(s.b, t.b);
    StaysClosed(s, t, o, k);
    if o in t.procs { NoRequestFor(size, s, e, o, k); }
    if t.up && !s.up { RestartAbandons(size, s, e, o, k); }
  }

  /** A prompt that exists while the broker is down never sends anything again. */
  lemma {:induction false} NothingResumed(size: Ledger -> nat, s: System, events: seq<Event>, o: Owner, k: PromptKey)
    requires RunInv(s) && !s.up && o in s.b.disk.sessions && k in s.b.disk.sessions[o].prompts
    ensures var t := Run(size, s, events);
            Abandoned(t, o, k)
            && forall key :: key in WorldOf(t, o).infers && key.prompt == k ==> key in WorldOf(s, o).infers
  {
    hide Apply, ProcStep, OwnersInv, OwnerInv, ReserveStep, LedgerInv;
    if events != [] {
      var last := |events| - 1;
      var u := Run(size, s, events[..last]);
      NothingResumed(size, s, events[..last], o, k);
      RunKeeps(size, s, events[..last]);
      AbandonedStays(size, u, events[last], o, k);
      EventSends(size, u, events[last], o);
    }
  }
}
