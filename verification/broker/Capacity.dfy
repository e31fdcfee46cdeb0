/**
 The byte reserve suffices. Ordinary changes leave room for every live owner; while each owner
 uses at most one new settlement key and one new retirement key between ordinary changes, no
 acceptance, closing, settlement or retirement is ever refused for lack of ledger space.
 */
module BrokerCapacity {
  import opened Wrappers
  import opened Text
  import opened Sums
  import opened BrokerLedger
  import opened BrokerChanges
  import opened BrokerValidity
  import opened BrokerSystem
  import opened BrokerInvariant
  import opened BrokerSteps
  import opened BrokerRequests
  import opened BrokerCleanup
  import opened BrokerSafety
  import opened BrokerMoves
  import opened BrokerEvents
  import opened BrokerRuns
  import opened BrokerTheorems
  import opened BrokerWrites
  import opened BrokerAuthority
  import opened BrokerContinuation
  import opened BrokerReopening
  import opened BrokerBytes
  import opened BrokerGrowth

  // ---------------------------------------------------------------------------
  // Only the latest invocation of a prompt can be unfinished
  // ---------------------------------------------------------------------------

  ghost predicate TidyRecord(m: Session) {
    forall k :: k in m.prompts ==> OlderDone(m.prompts[k])
  }

  ghost predicate AllDone(p: Prompt) {
    forall q :: q in p.invocations ==> Done(p.invocations[q])
  }

  /** A prompt that is open and has no request has nothing unfinished. */
  ghost predicate OpenRecord(m: Session, p: Option<Proc>) {
    forall k :: k in m.prompts && !m.prompts[k].closing && !(p.Some? && p.value.prompt == k) ==> AllDone(m.prompts[k])
  }

  ghost predicate TidyLedger(l: Ledger) {
    forall o, m :: Record(l, o, m) ==> TidyRecord(m)
  }

  ghost predicate OpenLedger(s: System) {
    forall o, m :: Record(s.b.disk, o, m) ==> OpenRecord(m, ProcOf(s, o))
  }

  ghost predicate TidyInv(s: System) {
    TidyLedger(s.b.disk) && (s.up && !s.b.poisoned ==> OpenLedger(s))
  }

  /** No invocation is new, and none of the others is the latest one now. */
  ghost predicate NoNewPrompt(p: Prompt, p1: Prompt) {
    p1.lastSequence == p.lastSequence && p1.invocations.Keys <= p.invocations.Keys
  }

  ghost predicate NoNewInvocation(m: Session, n: Session) {
    forall k :: k in n.prompts ==>
                  (k in m.prompts && NoNewPrompt(m.prompts[k], n.prompts[k])) || n.prompts[k].invocations == map[]
  }

  lemma DoneStays(p: Prompt, p1: Prompt)
    requires PromptAdvances(p, p1) && NoNewPrompt(p, p1)
    ensures OlderDone(p) ==> OlderDone(p1)
    ensures AllDone(p) ==> AllDone(p1)
  {
    forall q | q in p1.invocations ensures Done(p.invocations[q]) ==> Done(p1.invocations[q]) {
      assert InvocationAdvances(p.invocations[q], p1.invocations[q]);
    }
  }

  lemma TidyStays(m: Session, n: Session, p: Option<Proc>)
    requires SessionAdvances(m, n) && NoNewInvocation(m, n)
    ensures TidyRecord(m) ==> TidyRecord(n)
    ensures OpenRecord(m, p) ==> OpenRecord(n, p)
  {
    forall k | k in n.prompts && k in m.prompts && NoNewPrompt(m.prompts[k], n.prompts[k])
      ensures OlderDone(m.prompts[k]) ==> OlderDone(n.prompts[k])
      ensures AllDone(m.prompts[k]) ==> AllDone(n.prompts[k])
      ensures m.prompts[k].closing ==> n.prompts[k].closing
    {
      assert PromptAdvances(m.prompts[k], n.prompts[k]);
      DoneStays(m.prompts[k], n.prompts[k]);
    }
  }

  lemma RetireNoNew(s: Session, c: Context)
    requires RetireChange(s, c).Ok?
    ensures NoNewInvocation(s, RetireChange(s, c).value)
  {
  }

  lemma EnsureNoNew(s: Session, c: Context)
    requires EnsurePrompt(s, c).Ok?
    ensures NoNewInvocation(s, EnsurePrompt(s, c).value)
  {
  }

  lemma SettleNoNew(s: Session, c: Context)
    requires SettleChange(s, c).Ok?
    ensures NoNewInvocation(s, SettleChange(s, c).value)
  {
    EnsureNoNew(RecordOperation(s, Settle, c).value.0, c);
  }

  lemma RenewNoNew(s: Session, c: Context, now: int)
    requires RenewChange(s, c, now).Ok?
    ensures NoNewInvocation(s, RenewChange(s, c, now).value)
  {
    RenewStages(s, c, now);
    EnsureNoNew(RecordOperation(s, Renew, c).value.0, c);
  }

  lemma ControlNoNew(s: Session, path: Path, c: Context, now: int)
    requires !path.Responses? && ControlChange(s, path, c, now).Ok?
    ensures NoNewInvocation(s, ControlChange(s, path, c, now).value)
  {
    match path
    case Retire => RetireNoNew(s, c);
    case Settle => SettleNoNew(s, c);
    case Renew => RenewNoNew(s, c, now);
  }

  lemma ClosesNoNew(s: Session, t: Session)
    requires t.prompts.Keys == s.prompts.Keys && forall k :: k in s.prompts ==> Closes(s.prompts[k], t.prompts[k])
    ensures NoNewInvocation(s, t)
  {
    forall k | k in s.prompts ensures NoNewPrompt(s.prompts[k], t.prompts[k]) {
      assert Closes(s.prompts[k], t.prompts[k]);
    }
  }

  lemma ProcNoNew(s: System, o: Owner, e: ProcEvent)
    requires CanStep(s, o) && ProcNext(s, o, e).Some? && ProcNext(s, o, e).value.Ok?
    ensures NoNewInvocation(s.b.mem.sessions[o], ProcNext(s, o, e).value.value)
  {
    hide ProcNext;
    ProcOnly(s, o, e);
  }

  lemma CleanupNoNew(m: Session, closing: set<PromptKey>, retiring: bool, created: bool, kind: Kind, remote: string, at: int)
    requires CleanupChange(m, closing, retiring, created, kind, remote, at).Ok?
    ensures NoNewInvocation(m, CleanupChange(m, closing, retiring, created, kind, remote, at).value)
  {
    CleanupStages(m, closing, retiring, created, kind, remote, at);
  }

  lemma SelfNoNew(m: Session)
    ensures NoNewInvocation(m, m)
  {
  }

  ghost predicate NoNewIn(l: Ledger, m: Ledger) {
    forall o, n :: Record(m, o, n) ==> NoNewInvocation(Before(l, o), n)
  }

  lemma PutNoNew(l: Ledger, o: Owner, t: Session)
    requires NoNewInvocation(Before(l, o), t)
    ensures NoNewIn(l, PutSession(l, o, t))
  {
    forall x, n | Record(PutSession(l, o, t), x, n) ensures NoNewInvocation(Before(l, x), n) {
      if x != o { SelfNoNew(n); }
    }
  }

  lemma WritesNoNew(s: System, e: Event, l: Ledger)
    requires Writes(s, e, l) && !e.Reserving?
    ensures NoNewIn(s.b.mem, l)
  {
    match e
    case Controlled(path, c, _, _) =>
      var m := EnsureSession(s.b.mem, c.owner).value;
      ControlNoNew(m, path, c, s.now);
      PutNoNew(s.b.mem, c.owner, ControlChange(m, path, c, s.now).value);
    case ProcMoves(o, step) =>
      ProcNoNew(s, o, step);
      PutNoNew(s.b.mem, o, ProcNext(s, o, step).value.value);
    case WorkerMoves(o, move) =>
      var k := s.workers[o];
      CleanupNoNew(s.b.mem.sessions[o], k.closing, k.retiring, k.createState.Known?, k.stage.kind, k.remote, s.now);
      PutNoNew(s.b.mem, o, WorkerNext(s, o, move).value.value);
    case _ => ClosingNoNew(s, e, l);
  }

  lemma ClosingNoNew(s: System, e: Event, l: Ledger)
    requires Writes(s, e, l) && (e.Restart? || e.Sweeping? || e.Disconnected? || e.Pinning?)
    ensures NoNewIn(s.b.mem, l)
  {
    forall o, n | Record(l, o, n) ensures NoNewInvocation(Before(s.b.mem, o), n) {
      ClosesNoNew(Before(s.b.mem, o), n);
    }
  }

  // ---------------------------------------------------------------------------
  // Admission and the end of a request
  // ---------------------------------------------------------------------------

  lemma ReservedTidy(m: Session, c: Context, r: Request, normal: bool, now: int)
    requires ReserveChange(m, c, r, normal, now).Ok? && TidyRecord(m) && OpenRecord(m, None)
    ensures var n := ReserveChange(m, c, r, normal, now).value.0;
            TidyRecord(n) && OpenRecord(n, Some(Proc(c.prompt, c.sequence, c.operationID, Started)))
  {
    ReserveStages(m, c, r, normal, now);
    var s2 := EnsurePrompt(RecordOperation(m, Responses, c).value.0, c).value;
    var n := ReserveChange(m, c, r, normal, now).value.0;
    assert AllDone(s2.prompts[c.prompt]);
    forall k | k in n.prompts ensures OlderDone(n.prompts[k]) {
      if k != c.prompt { assert n.prompts[k] == m.prompts[k]; }
    }
    forall k | k in n.prompts && !n.prompts[k].closing && k != c.prompt ensures AllDone(n.prompts[k]) {
      assert n.prompts[k] == m.prompts[k];
    }
  }

  lemma ReserveNextTidy(l: Ledger, c: Context, r: Request, normal: bool, now: int)
    requires ReserveNext(l, c, r, normal, now).Ok? && TidyLedger(l)
    requires forall m :: Record(l, c.owner, m) ==> OpenRecord(m, None)
    ensures var n := ReserveNext(l, c, r, normal, now).value.0;
            && TidyLedger(n)
            && forall m :: Record(n, c.owner, m) ==> OpenRecord(m, Some(Proc(c.prompt, c.sequence, c.operationID, Started)))
  {
    var s := EnsureSession(l, c.owner).value;
    if c.owner in l.sessions { assert Record(l, c.owner, s); }
    ReservedTidy(s, c, r, normal, now);
    var n := ReserveNext(l, c, r, normal, now).value.0;
    forall o, m | Record(n, o, m) ensures TidyRecord(m) {
      if o != c.owner { assert Record(l, o, m); }
    }
  }

  /** The ledger that the end of a request asks for. */
  function FinishedLedger(s: System, o: Owner): Ledger
    requires CanStep(s, o) && s.procs[o].pc.Ended?
  {
    var p := s.procs[o];
    PutSession(s.b.mem, o, FinishChange(s.b.mem.sessions[o], p.prompt, p.seqNo, p.pc.outcome))
  }

  /** The end of a request, when its commit was not refused for lack of space. */
  lemma FinishSaved(size: Ledger -> nat, s: System, o: Owner, io: Io)
    requires CanStep(s, o) && s.procs[o].pc.Ended? && !s.b.poisoned
    requires size(FinishedLedger(s, o)) <= MAX_LEDGER_BYTES
    ensures var t := ProcStep(size, s, o, Finish(io));
            && WorldOf(t, o).unfinished == WorldOf(s, o).unfinished && o !in t.procs
            && (!t.b.poisoned ==> t.b.mem == FinishedLedger(s, o))
  {
  }

  lemma FinishedOpen(m: Session, p: Proc, w: World)
    requires ProcFacts(m, p, w) && p.pc.Ended? && OpenRecord(m, Some(p)) && TidyRecord(m)
    ensures OpenRecord(FinishChange(m, p.prompt, p.seqNo, p.pc.outcome), None)
  {
    var n := FinishChange(m, p.prompt, p.seqNo, p.pc.outcome);
    forall k | k in n.prompts && !n.prompts[k].closing ensures AllDone(n.prompts[k]) {
      if k == p.prompt {
        assert p.pc.outcome.Success?;
        assert OlderDone(m.prompts[k]);
      }
    }
  }

  /** Away from its end, a request stays with its prompt. */
  lemma RequestKept(size: Ledger -> nat, s: System, e: Event, o: Owner)
    requires s.procs.Keys == s.b.active.Keys && o in s.procs && Apply(size, s, e).up
    requires !(e.ProcMoves? && e.owner == o && e.step.Finish? && s.procs[o].pc.Ended?)
    ensures o in Apply(size, s, e).procs && Apply(size, s, e).procs[o].prompt == s.procs[o].prompt
  {
    if e.ProcMoves? && e.owner == o {
      if CanStep(s, o) { OwnStepKept(size, s, o, e.step); }
    } else {
      RequestStays(size, s, e, o);
    }
  }

  lemma OwnStepKept(size: Ledger -> nat, s: System, o: Owner, e: ProcEvent)
    requires CanStep(s, o) && !(e.Finish? && s.procs[o].pc.Ended?)
    ensures o in ProcStep(size, s, o, e).procs && ProcStep(size, s, o, e).procs[o].prompt == s.procs[o].prompt
  {
    if !e.Finish? && !e.Complete? { OtherProcEvents(size, s, o, e); }
  }

  // ---------------------------------------------------------------------------
  // Room
  // ---------------------------------------------------------------------------

  lemma PromptRoom(e: Encoding, m: Session, o: Owner, k: PromptKey)
    requires SessionValid(m, o) && TidyRecord(m) && k in m.prompts
    ensures PromptWeight(e, m.prompts[k]) <= PromptBytes(e, m.prompts[k]) + (if m.current == Some(k) && !m.retired then 3 + PROOF_BYTES else 0)
  {
    assert PromptValid(m.prompts[k], k, m);
    if m.prompts[k].settled {
      forall q | q in m.prompts[k].invocations ensures Done(m.prompts[k].invocations[q]) {
        assert InvocationValid(m.prompts[k].invocations[q], q, k, true, m);
      }
      SettledHeavier(e, m.prompts[k]);
    } else {
      PromptHeavier(e, m.prompts[k]);
    }
  }

  // What the records of one live owner can still grow by, without acceptances and keys.
  const OWED_BYTES: nat := 2 * PROOF_BYTES + 53 + 3

  lemma SessionRoom(e: Encoding, m: Session, o: Owner)
    requires SessionValid(m, o) && TidyRecord(m)
    ensures SessionWeight(e, m) <= SessionBytes(e, m) + (if m.retired then 0 else OWED_BYTES)
  {
    forall k | k in m.prompts
      ensures PromptWeightOf(e)(k, m.prompts[k])
              <= PromptBytesOf(e)(k, m.prompts[k]) + (if m.current == Some(k) && !m.retired then 3 + PROOF_BYTES else 0)
    {
      PromptRoom(e, m, o, k);
    }
    PromptsRoom(e, m);
  }

  lemma PromptsRoom(e: Encoding, m: Session)
    requires forall k :: k in m.prompts ==>
               PromptWeightOf(e)(k, m.prompts[k])
               <= PromptBytesOf(e)(k, m.prompts[k]) + (if m.current == Some(k) && !m.retired then 3 + PROOF_BYTES else 0)
    ensures SessionWeight(e, m) <= SessionBytes(e, m) + (if m.retired then 0 else OWED_BYTES)
  {
    hide PromptWeight, PromptBytes, SessionShell, SessionRest;
    if m.retired || m.current.None? {
      TotalCompare(m.prompts, m.prompts, PromptWeightOf(e), PromptBytesOf(e));
    } else {
      TotalExtra(m.prompts, PromptWeightOf(e), PromptBytesOf(e), m.current.value, 3 + PROOF_BYTES);
    }
  }

  lemma LedgerRoom(e: Encoding, l: Ledger)
    requires OwnersSound(l) && TidyLedger(l)
    ensures LedgerWeight(e, l) <= LedgerBytes(e, l) + Field(l.principal == "", PRINCIPAL_BYTES) + OWED_BYTES * |LiveOwners(l)|
  {
    forall o | o in l.sessions
      ensures SessionWeightOf(e)(o, l.sessions[o])
              <= SessionBytesOf(e)(o, l.sessions[o]) + (if o in LiveOwners(l) then OWED_BYTES else 0)
    {
      assert Record(l, o, l.sessions[o]);
      SessionRoom(e, l.sessions[o], o);
    }
    TotalEach(l.sessions, SessionWeightOf(e), SessionBytesOf(e), LiveOwners(l), OWED_BYTES);
  }

  // ---------------------------------------------------------------------------
  // Budgets
  // ---------------------------------------------------------------------------

  // The owners that may still use a new settlement key, and a new retirement key.
  datatype Budget = Budget(settle: set<Owner>, retire: set<Owner>)

  predicate AwaitsAcceptance(pc: Pc) {
    || pc.Started? || pc.Prepared? || pc.CreateReady? || pc.CreateSent? || pc.CreateAnswered?
    || pc.SessionReady? || pc.InferReady? || pc.InferSent?
  }

  function Awaiting(s: System): set<Owner> {
    set o | o in s.procs && AwaitsAcceptance(s.procs[o].pc)
  }

  /** The caller's side: one new key of each kind for each owner between ordinary changes. */
  predicate Disciplined(s: System, e: Event, b: Budget) {
    NewKey(s, e) ==> e.context.owner in (if e.path.Settle? then b.settle else b.retire)
  }

  function NextBudget(s: System, e: Event, disk: Ledger, b: Budget): Budget {
    if disk == s.b.disk then b
    else if Ordinary(s, e) then Budget(LiveOwners(disk), LiveOwners(disk))
    else if !NewKey(s, e) then b
    else if e.path.Settle? then b.(settle := b.settle - {e.context.owner})
    else b.(retire := b.retire - {e.context.owner})
  }

  /** The length of the ledger, with everything reserved changes may still add, is within the limit. */
  ghost predicate RoomInv(e: Encoding, s: System, b: Budget) {
    LedgerWeight(e, s.b.disk) + KEY_BYTES * |b.settle| + KEY_BYTES * |b.retire| + ACCEPT_BYTES * |Awaiting(s)| <= MAX_LEDGER_BYTES
  }

  lemma Monotone(c: nat, m: nat, n: nat)
    requires m <= n
    ensures c * m <= c * n
  {
  }

  lemma OneLess(c: nat, a: set<Owner>, b: set<Owner>, o: Owner)
    requires o in b && a <= b - {o}
    ensures c * |a| + c <= c * |b|
  {
    SubsetSize(a, b - {o});
    assert |b| == |b - {o}| + 1;
    Monotone(c, |a|, |b| - 1);
    assert c * |b| == c * (|b| - 1) + c;
  }

  lemma Fewer(c: nat, a: set<Owner>, b: set<Owner>)
    requires a <= b
    ensures c * |a| <= c * |b|
  {
    SubsetSize(a, b);
    Monotone(c, |a|, |b|);
  }

  /** An ordinary change leaves room for all it may lead to. */
  lemma OrdinaryRoom(e: Encoding, l: Ledger, awaiting: set<Owner>)
    requires OwnersSound(l) && TidyLedger(l) && awaiting <= LiveOwners(l)
    requires LedgerBytes(e, l) <= MAX_LEDGER_BYTES - ReserveBytes(l)
    ensures var n := |LiveOwners(l)|;
            LedgerWeight(e, l) + KEY_BYTES * n + KEY_BYTES * n + ACCEPT_BYTES * |awaiting| <= MAX_LEDGER_BYTES
  {
    LedgerRoom(e, l);
    Fewer(ACCEPT_BYTES, awaiting, LiveOwners(l));
    ReserveCovers(|LiveOwners(l)|);
  }

  lemma ReserveCovers(n: nat)
    ensures OWED_BYTES * n + KEY_BYTES * n + KEY_BYTES * n + ACCEPT_BYTES * n <= OWNER_RESERVE_BYTES * n
  {
    assert OWED_BYTES + KEY_BYTES + KEY_BYTES + ACCEPT_BYTES <= OWNER_RESERVE_BYTES;
    assert (OWED_BYTES + KEY_BYTES + KEY_BYTES + ACCEPT_BYTES) * n <= OWNER_RESERVE_BYTES * n;
  }

  // ---------------------------------------------------------------------------
  // Every event
  // ---------------------------------------------------------------------------

  lemma AwaitingIdentity(size: Ledger -> nat, s: System, o: Owner, step: ProcEvent)
    requires CanStep(s, o) && step.Identity?
    requires AwaitsAcceptance(ProcStep(size, s, o, step).procs[o].pc)
    ensures AwaitsAcceptance(s.procs[o].pc) && ProcStep(size, s, o, step).b == s.b
  {
    hide CommitSession, CreateIntentChange, InferIntentChange, IdentityChange, CompleteChange, RefusalChange, CreateResultChange, AliasValid, IdentifierValid, FreshAliases, UuidValid, FinishChange;
  }

  lemma AwaitingCommits(size: Ledger -> nat, s: System, o: Owner, step: ProcEvent)
    requires CanStep(s, o) && Commits(step) && !step.Identity?
    requires o in ProcStep(size, s, o, step).procs && AwaitsAcceptance(ProcStep(size, s, o, step).procs[o].pc)
    ensures o in s.procs && AwaitsAcceptance(s.procs[o].pc)
  {
    hide CommitSession, CreateIntentChange, InferIntentChange, IdentityChange, CompleteChange, RefusalChange, CreateResultChange, AliasValid, IdentifierValid, FreshAliases, UuidValid, FinishChange;
  }

  lemma AwaitingSilent(size: Ledger -> nat, s: System, o: Owner, step: ProcEvent)
    requires CanStep(s, o) && !Commits(step) && AwaitsAcceptance(ProcStep(size, s, o, step).procs[o].pc)
    ensures o in s.procs && AwaitsAcceptance(s.procs[o].pc)
  {
    hide CommitSession, CreateIntentChange, InferIntentChange, IdentityChange, CompleteChange, RefusalChange, CreateResultChange, AliasValid, IdentifierValid, FreshAliases, UuidValid, FinishChange;
  }

  lemma AwaitingProcs(size: Ledger -> nat, s: System, x: Owner, step: ProcEvent, o: Owner)
    requires CanStep(s, x) && o in ProcStep(size, s, x, step).procs && AwaitsAcceptance(ProcStep(size, s, x, step).procs[o].pc)
    ensures o in s.procs && AwaitsAcceptance(s.procs[o].pc)
    ensures x == o && step.Identity? ==> ProcStep(size, s, x, step).b == s.b
  {
    hide ProcStep, AwaitsAcceptance;
    if x != o {
      ProcStepOthers(size, s, x, step, o);
    } else if step.Identity? {
      AwaitingIdentity(size, s, o, step);
    } else if Commits(step) {
      AwaitingCommits(size, s, o, step);
    } else {
      AwaitingSilent(size, s, o, step);
    }
  }

  lemma AwaitingOne(size: Ledger -> nat, s: System, e: Event, o: Owner)
    requires s.b.mem == s.b.disk || s.b.poisoned
    requires !(e.Reserving? && Apply(size, s, e).b.disk != s.b.disk) && o in Awaiting(Apply(size, s, e))
    ensures o in Awaiting(s)
    ensures e.ProcMoves? && e.step.Identity? && e.owner == o ==> Apply(size, s, e).b.disk == s.b.disk
  {
    hide Apply, ProcStep, WorkerStep, ReserveStep, HasInvocation, ParsedContext;
    match e
    case ProcMoves(x, step) =>
      ProcMovesApply(size, s, x, step);
      if CanStep(s, x) { AwaitingProcs(size, s, x, step, o); }
    case WorkerMoves(x, move) =>
      WorkerMovesApply(size, s, x, move);
      if s.up && x in s.workers && x in s.b.mem.sessions { WorkerStepProcs(size, s, x, move); }
    case Reserving(c, r, normal, at, io) =>
      ReservingApply(size, s, c, r, normal, at, io);
      if s.up && 0 < at <= s.now && ParsedContext(Responses, c, at) { ReserveSame(size, s, c, r, normal, io); }
    case _ => QuietProcs(size, s, e);
  }

  /** No event but an admission that reached the disk adds a request that awaits acceptance. */
  lemma AwaitingShrinks(size: Ledger -> nat, s: System, e: Event)
    requires s.b.mem == s.b.disk || s.b.poisoned
    requires !(e.Reserving? && Apply(size, s, e).b.disk != s.b.disk)
    ensures Awaiting(Apply(size, s, e)) <= Awaiting(s)
    ensures e.ProcMoves? && e.step.Identity? && Apply(size, s, e).b.disk != s.b.disk ==> e.owner !in Awaiting(Apply(size, s, e))
  {
    hide Apply;
    forall o | o in Awaiting(Apply(size, s, e))
      ensures o in Awaiting(s)
      ensures e.ProcMoves? && e.step.Identity? && e.owner == o ==> Apply(size, s, e).b.disk == s.b.disk
    {
      AwaitingOne(size, s, e, o);
    }
  }

  lemma ReserveSame(size: Ledger -> nat, s: System, c: Context, r: Request, normal: bool, io: Io)
    requires ReserveStep(size, s, c, r, normal, io).b.disk == s.b.disk && (s.b.mem == s.b.disk || s.b.poisoned)
    ensures ReserveStep(size, s, c, r, normal, io).procs == s.procs
  {
    ReserveShape(size, s, c, r, normal, io);
    ReserveBrokerShape(size, s.b, c, r, normal, s.now, io);
    if ReserveNext(s.b.mem, c, r, normal, s.now).Ok? { ReserveChanges(s.b.mem, c, r, normal, s.now); }
  }

  lemma ReserveChanges(l: Ledger, c: Context, r: Request, normal: bool, now: int)
    requires ReserveNext(l, c, r, normal, now).Ok?
    ensures ReserveNext(l, c, r, normal, now).value.0 != l
  {
    var s := EnsureSession(l, c.owner).value;
    ReserveStages(s, c, r, normal, now);
    var n := ReserveNext(l, c, r, normal, now).value.0;
    assert c.owner in n.sessions && c.operationID in n.sessions[c.owner].operations;
  }

  /** Requests in flight belong to live owners. */
  lemma AwaitingLive(s: System)
    requires SystemInv(s)
    ensures Awaiting(s) <= LiveOwners(s.b.disk)
  {
    forall o | o in Awaiting(s) ensures o in LiveOwners(s.b.disk) {
      assert OwnerInv(s, o);
      OwnerSides(s, o);
      RecordNow(s, o, s.b.disk.sessions[o]);
    }
  }

  /** What is needed, besides the invariant of runs, to reckon with lengths. */
  ghost predicate CapacityInv(e: Encoding, s: System, b: Budget) {
    && TextsLedger(s.b.mem) && TextsLedger(s.b.disk) && ProcsPrepared(s)
    && TidyInv(s) && RoomInv(e, s, b)
    && forall o :: WorldOf(s, o).unfinished == {}
  }

  /** What a reserved change needs is still set aside. */
  lemma GrowthCovered(e: Encoding, s: System, v: Event, b: Budget)
    requires RoomInv(e, s, b) && Disciplined(s, v, b)
    requires v.ProcMoves? && v.step.Identity? ==> v.owner in Awaiting(s)
    ensures LedgerWeight(e, s.b.disk) + Growth(s, v) <= MAX_LEDGER_BYTES
  {
    hide LedgerWeight, Ordinary;
    if NewKey(s, v) {
      OneLess(KEY_BYTES, {}, if v.path.Settle? then b.settle else b.retire, v.context.owner);
    } else if v.ProcMoves? && v.step.Identity? {
      OneLess(ACCEPT_BYTES, {}, Awaiting(s), v.owner);
    }
  }

  lemma AcceptanceAwaits(s: System, v: Event, l: Ledger)
    requires SystemInv(s) && TextsLedger(s.b.mem) && ProcsPrepared(s) && Writes(s, v, l)
    ensures v.ProcMoves? && v.step.Identity? ==> v.owner in Awaiting(s)
  {
    if v.ProcMoves? && v.step.Identity? { IdentityAwaits(s, v.owner, v.step); }
  }

  /** A reserved change that is asked for fits. */
  lemma ReservedFits(e: Encoding, s: System, v: Event, b: Budget, l: Ledger)
    requires SystemInv(s) && TextsLedger(s.b.mem) && ProcsPrepared(s) && RoomInv(e, s, b)
    requires s.b.mem == s.b.disk && Writes(s, v, l) && !Ordinary(s, v) && Disciplined(s, v, b)
    ensures LedgerBytes(e, l) <= MAX_LEDGER_BYTES
  {
    hide Writes, Disciplined, LedgerBytes, LedgerWeight;
    LedgerLighter(e, l);
    ReservedGrowth(e, s, v, l);
    AcceptanceAwaits(s, v, l);
    GrowthCovered(e, s, v, b);
  }

  lemma IdentityAwaits(s: System, o: Owner, step: ProcEvent)
    requires SystemInv(s) && TextsLedger(s.b.mem) && ProcsPrepared(s) && CanStep(s, o) && step.Identity?
    requires ProcNext(s, o, step).Some? && ProcNext(s, o, step).value.Ok?
    ensures o in Awaiting(s)
  {
    IdentityAsked(s, o, step);
    StreamingAnswered(s, o);
  }

  lemma ReservedRoom(e: Encoding, s: System, v: Event, b: Budget, t: System)
    requires SystemInv(s) && TextsLedger(s.b.mem) && ProcsPrepared(s) && RoomInv(e, s, b)
    requires s.b.mem == s.b.disk && Writes(s, v, t.b.disk) && t.b.disk != s.b.disk && !Ordinary(s, v) && Disciplined(s, v, b)
    requires Awaiting(t) <= Awaiting(s) && (v.ProcMoves? && v.step.Identity? ==> v.owner !in Awaiting(t))
    ensures RoomInv(e, t, NextBudget(s, v, t.b.disk, b))
  {
    hide Writes, LedgerWeight, Ordinary, OwnerInv, SideInv, WorkerFacts, SystemInv, ProcNext, Awaiting, WorldOf, ReserveNext, OwnerValid, ControlChange;
    ReservedGrowth(e, s, v, t.b.disk);
    if NewKey(s, v) {
      Fewer(ACCEPT_BYTES, Awaiting(t), Awaiting(s));
      var keys := if v.path.Settle? then b.settle else b.retire;
      OneLess(KEY_BYTES, keys - {v.context.owner}, keys, v.context.owner);
    } else if v.ProcMoves? && v.step.Identity? {
      AcceptanceAwaits(s, v, t.b.disk);
      OneLess(ACCEPT_BYTES, Awaiting(t), Awaiting(s), v.owner);
    } else {
      Fewer(ACCEPT_BYTES, Awaiting(t), Awaiting(s));
    }
  }

  lemma RoomKept(e: Encoding, s: System, v: Event, b: Budget)
    requires RunInv(s) && CapacityInv(e, s, b) && Disciplined(s, v, b)
    requires TidyLedger(Apply(SizeOf(e), s, v).b.disk)
    ensures RoomInv(e, Apply(SizeOf(e), s, v), NextBudget(s, v, Apply(SizeOf(e), s, v).b.disk, b))
  {
    hide Apply, Writes, LedgerWeight, LedgerBytes;
    var t := Apply(SizeOf(e), s, v);
    ApplyKeeps(SizeOf(e), s, v);
    DiskWritten(SizeOf(e), s, v);
    if t.b.disk == s.b.disk {
      AwaitingShrinks(SizeOf(e), s, v);
      Fewer(ACCEPT_BYTES, Awaiting(t), Awaiting(s));
    } else if Ordinary(s, v) {
      LedgersSound(t);
      AwaitingLive(t);
      OrdinaryRoom(e, t.b.disk, Awaiting(t));
    } else {
      AwaitingShrinks(SizeOf(e), s, v);
      ReservedRoom(e, s, v, b, t);
    }
  }

  // ---------------------------------------------------------------------------
  // Tidiness along a run
  // ---------------------------------------------------------------------------

  lemma OthersTidy(size: Ledger -> nat, s: System, v: Event)
    requires RunInv(s) && TidyLedger(s.b.disk) && !v.Reserving?
    ensures TidyLedger(Apply(size, s, v).b.disk)
  {
    hide Apply, OwnerInv, Recovered, OwnersInv, LedgerInv, CompleteChange;
    var l := Apply(size, s, v).b.disk;
    ApplyKeeps(size, s, v);
    DiskWritten(size, s, v);
    if l != s.b.disk {
      WritesNoNew(s, v, l);
      forall o, n | Record(l, o, n) ensures TidyRecord(n) {
        if o in s.b.disk.sessions {
          assert Record(s.b.disk, o, s.b.disk.sessions[o]);
          TidyStays(s.b.disk.sessions[o], n, None);
        }
      }
    }
  }

  lemma WrittenTidy(size: Ledger -> nat, s: System, v: Event)
    requires RunInv(s) && TidyInv(s)
    ensures TidyLedger(Apply(size, s, v).b.disk)
  {
    hide Apply, Writes;
    if v.Reserving? {
      DiskWritten(size, s, v);
      if Apply(size, s, v).b.disk != s.b.disk { ReservingTidy(size, s, v); }
    } else {
      OthersTidy(size, s, v);
    }
  }

  lemma ReservingTidy(size: Ledger -> nat, s: System, v: Event)
    requires SystemInv(s) && TidyInv(s) && v.Reserving? && Apply(size, s, v).b.disk != s.b.disk
    requires Written(size, s, v, Apply(size, s, v).b.disk)
    ensures var t := Apply(size, s, v);
            && TidyLedger(t.b.disk)
            && (!t.b.poisoned ==> forall m :: Record(t.b.disk, v.context.owner, m) ==> OpenRecord(m, ProcOf(t, v.context.owner)))
  {
    hide ReserveChange, RestartStep, OwnersInv, ControlChange, OwnerValid, SessionAmbiguous, TidyRecord, AckedCreate, PutState, RefusedInfer, CreateResultChange;
    var c := v.context;
    ReserveOwner(size, s, c, v.request, v.outputsNormal, v.io);
    forall m | Record(s.b.mem, c.owner, m) ensures OpenRecord(m, None) {
      assert ProcOf(s, c.owner) == None;
    }
    ReserveNextTidy(s.b.mem, c, v.request, v.outputsNormal, s.now);
  }

  lemma OpenStays(m: Session, n: Session, p: Option<Proc>, q: Option<Proc>)
    requires OpenRecord(m, p) && SessionAdvances(m, n) && NoNewInvocation(m, n)
    requires p.Some? ==> q.Some? && q.value.prompt == p.value.prompt
    ensures OpenRecord(n, q)
  {
    TidyStays(m, n, p);
  }

  /** The request of an owner after an event that is neither its admission nor its end. */
  lemma OpenElsewhere(size: Ledger -> nat, s: System, v: Event, o: Owner, n: Session)
    requires RunInv(s) && TidyInv(s) && s.up && !s.b.poisoned && Apply(size, s, v).up && !Apply(size, s, v).b.poisoned
    requires Record(Apply(size, s, v).b.disk, o, n)
    requires !(v.Reserving? && v.context.owner == o)
    requires !(v.ProcMoves? && v.owner == o && v.step.Finish? && o in s.procs && s.procs[o].pc.Ended?)
    ensures OpenRecord(n, ProcOf(Apply(size, s, v), o))
  {
    hide Apply, Writes, OpenRecord, Ordinary;
    var t := Apply(size, s, v);
    ApplyKeeps(size, s, v);
    DiskWritten(size, s, v);
    if o in s.procs { RequestKept(size, s, v, o); }
    if o in s.b.disk.sessions {
      var m := s.b.disk.sessions[o];
      assert Record(s.b.disk, o, m);
      if n == m {
        SelfNoNew(m);
        SessionAdvancesSelf(m);
      } else {
        OtherNoNew(size, s, v, o, n);
        StepForward(s.b, t.b);
      }
      OpenStays(m, n, ProcOf(s, o), ProcOf(t, o));
    } else {
      OtherNoNew(size, s, v, o, n);
      FreshOpen(o, n, ProcOf(t, o));
    }
  }

  lemma FreshOpen(o: Owner, n: Session, p: Option<Proc>)
    requires NoNewInvocation(EmptySession(o), n)
    ensures OpenRecord(n, p)
  {
  }

  lemma OtherNoNew(size: Ledger -> nat, s: System, v: Event, o: Owner, n: Session)
    requires Record(Apply(size, s, v).b.disk, o, n) && !Record(s.b.disk, o, n) && !(v.Reserving? && v.context.owner == o)
    requires Apply(size, s, v).b.disk == s.b.disk || Written(size, s, v, Apply(size, s, v).b.disk)
    ensures NoNewInvocation(Before(s.b.disk, o), n)
  {
    hide Apply, Writes, NoNewInvocation;
    if v.Reserving? {
      ReservesOne(s, v, Apply(size, s, v).b.disk, o, n);
    } else {
      WritesNoNew(s, v, Apply(size, s, v).b.disk);
    }
  }

  lemma ReservesOne(s: System, v: Event, l: Ledger, o: Owner, n: Session)
    requires v.Reserving? && Writes(s, v, l) && v.context.owner != o && Record(l, o, n)
    ensures Record(s.b.mem, o, n)
  {
  }

  /** No end of a request is refused for lack of space. */
  ghost predicate FinishesFit(e: Encoding, s: System) {
    s.b.mem == s.b.disk ==> forall o :: CanStep(s, o) && s.procs[o].pc.Ended? ==> LedgerBytes(e, FinishedLedger(s, o)) <= MAX_LEDGER_BYTES
  }

  lemma FinishWrites(s: System, o: Owner)
    requires CanStep(s, o) && s.procs[o].pc.Ended?
    ensures Writes(s, ProcMoves(o, Finish(Saved)), FinishedLedger(s, o))
  {
    hide FinishChange;
  }

  lemma FinishesCovered(e: Encoding, s: System, b: Budget)
    requires SystemInv(s) && CapacityInv(e, s, b)
    ensures FinishesFit(e, s)
  {
    hide LedgerBytes, LedgerWeight, TidyInv, Writes, FinishedLedger, RoomInv, SystemInv;
    if s.b.mem == s.b.disk {
      forall o | CanStep(s, o) && s.procs[o].pc.Ended? ensures LedgerBytes(e, FinishedLedger(s, o)) <= MAX_LEDGER_BYTES {
        FinishWrites(s, o);
        ReservedFits(e, s, ProcMoves(o, Finish(Saved)), b, FinishedLedger(s, o));
      }
    }
  }

  lemma FinishedNow(s: System, o: Owner)
    requires SystemInv(s) && TidyInv(s) && CanStep(s, o) && s.procs[o].pc.Ended? && !s.b.poisoned
    ensures var p := s.procs[o]; OpenRecord(FinishChange(s.b.mem.sessions[o], p.prompt, p.seqNo, p.pc.outcome), None)
  {
    var p, m := s.procs[o], s.b.mem.sessions[o];
    assert Record(s.b.mem, o, m) && Record(s.b.disk, o, m);
    RecordNow(s, o, m);
    FinishedOpen(m, p, WorldOf(s, o));
  }

  lemma FinishOpen(e: Encoding, s: System, o: Owner, io: Io, n: Session)
    requires RunInv(s) && TidyInv(s) && FinishesFit(e, s) && CanStep(s, o) && s.procs[o].pc.Ended? && !s.b.poisoned
    requires var t := Apply(SizeOf(e), s, ProcMoves(o, Finish(io))); !t.b.poisoned && Record(t.b.mem, o, n)
    ensures OpenRecord(n, ProcOf(Apply(SizeOf(e), s, ProcMoves(o, Finish(io))), o))
  {
    hide OpenRecord, TidyInv, FinishChange, LedgerBytes, OwnersInv, LedgerInv, Apply, ProcStep, OwnerInv, ReserveStep, RecordInv, SideInv, Forward;
    FinishedNow(s, o);
    FinishSavedHere(e, s, o, io, n);
  }

  lemma FinishSavedHere(e: Encoding, s: System, o: Owner, io: Io, n: Session)
    requires CanStep(s, o) && s.procs[o].pc.Ended? && !s.b.poisoned && LedgerBytes(e, FinishedLedger(s, o)) <= MAX_LEDGER_BYTES
    requires var t := Apply(SizeOf(e), s, ProcMoves(o, Finish(io))); !t.b.poisoned && Record(t.b.mem, o, n)
    ensures var p := s.procs[o];
            n == FinishChange(s.b.mem.sessions[o], p.prompt, p.seqNo, p.pc.outcome)
            && ProcOf(Apply(SizeOf(e), s, ProcMoves(o, Finish(io))), o) == None
  {
    hide HasInvocation, ProcStep, WorldOf, ReserveStep, WorkerStep, FinishChange, ReserveChange, ReserveNext, ControlNext;
    FinishSaved(SizeOf(e), s, o, io);
  }

  lemma RestartOpen(size: Ledger -> nat, s: System, v: Event, o: Owner, n: Session)
    requires SystemInv(s) && !s.up && Apply(size, s, v).up && Record(Apply(size, s, v).b.mem, o, n)
    ensures OpenRecord(n, ProcOf(Apply(size, s, v), o))
  {
    hide ProcStep, OwnerInv, ReserveStep, SideInv, WorkerStep, ReserveChange, ReserveNext, LedgerInv, LedgerValid;
    ReopenRecovers(size, s.b.disk, v.io);
    RecoveredOpen(s, o, n);
  }

  lemma RecoveredOpen(s: System, o: Owner, n: Session)
    requires SystemInv(s) && !s.up && Record(Recovered(s.b.disk), o, n)
    ensures OpenRecord(n, None)
  {
    var m := s.b.disk.sessions[o];
    assert Record(s.b.disk, o, m);
    RecordNow(s, o, m);
    SettledCloses(m, o);
  }

  lemma OpenKept(e: Encoding, s: System, v: Event, o: Owner, n: Session)
    requires RunInv(s) && TidyInv(s) && FinishesFit(e, s)
    requires var t := Apply(SizeOf(e), s, v); t.up && !t.b.poisoned && t.b.mem == t.b.disk && Record(t.b.disk, o, n)
    ensures OpenRecord(n, ProcOf(Apply(SizeOf(e), s, v), o))
  {
    hide Apply, OpenRecord;
    if !s.up {
      RestartOpen(SizeOf(e), s, v, o, n);
    } else if s.b.poisoned {
      StillPoisoned(SizeOf(e), s, v);
    } else if v.Reserving? && v.context.owner == o {
      ReservingOpen(SizeOf(e), s, v, n);
    } else if v.ProcMoves? && v.owner == o && v.step.Finish? && o in s.procs && s.procs[o].pc.Ended? {
      CannotFinish(s, v, o);
      FinishOpen(e, s, o, v.step.io, n);
    } else {
      OpenElsewhere(SizeOf(e), s, v, o, n);
    }
  }

  lemma CannotFinish(s: System, v: Event, o: Owner)
    requires SystemInv(s) && s.up && o in s.procs
    ensures CanStep(s, o)
  {
    assert OwnerInv(s, o);
    OwnerSides(s, o);
    RecordNow(s, o, s.b.mem.sessions[o]);
  }

  lemma ReservingOpen(size: Ledger -> nat, s: System, v: Event, n: Session)
    requires RunInv(s) && TidyInv(s) && v.Reserving? && s.up && !s.b.poisoned
    requires var t := Apply(size, s, v); !t.b.poisoned && Record(t.b.disk, v.context.owner, n)
    ensures OpenRecord(n, ProcOf(Apply(size, s, v), v.context.owner))
  {
    hide Apply, OpenRecord, Writes;
    DiskWritten(size, s, v);
    if Apply(size, s, v).b.disk != s.b.disk {
      ReservingTidy(size, s, v);
    } else {
      ReservingSame(size, s, v);
    }
  }

  lemma ReservingSame(size: Ledger -> nat, s: System, v: Event)
    requires v.Reserving? && s.b.mem == s.b.disk && Apply(size, s, v).b.disk == s.b.disk
    ensures Apply(size, s, v).procs == s.procs
  {
    if s.up && 0 < v.parsedAt <= s.now && ParsedContext(Responses, v.context, v.parsedAt) {
      ReserveSame(size, s, v.context, v.request, v.outputsNormal, v.io);
    }
  }

  // ---------------------------------------------------------------------------
  // Whole runs
  // ---------------------------------------------------------------------------

  lemma UnfinishedSame(size: Ledger -> nat, s: System, v: Event, o: Owner)
    requires !(v.ProcMoves? && v.owner == o && v.step.Finish? && CanStep(s, o) && s.procs[o].pc.Ended?)
    ensures WorldOf(Apply(size, s, v), o).unfinished == WorldOf(s, o).unfinished
  {
    hide Apply, ProcStep, WorkerStep, ReserveStep, HasInvocation, ParsedContext;
    match v
    case ProcMoves(x, step) =>
      ProcMovesApply(size, s, x, step);
      if CanStep(s, x) {
        if x == o { OwnUnfinished(size, s, x, step); } else { ProcElsewhere(size, s, x, step, o); }
      }
    case WorkerMoves(x, move) =>
      WorkerMovesApply(size, s, x, move);
      if s.up && x in s.workers && x in s.b.mem.sessions {
        if x == o { WorkerCounts(size, s, x, move); } else { WorkerElsewhere(size, s, x, move, o); }
      }
    case Reserving(c, r, normal, at, io) =>
      ReservingApply(size, s, c, r, normal, at, io);
      ReserveShape(size, s, c, r, normal, io);
    case _ => QuietEvent(size, s, v);
  }

  lemma OwnUnfinished(size: Ledger -> nat, s: System, o: Owner, e: ProcEvent)
    requires CanStep(s, o) && !(e.Finish? && s.procs[o].pc.Ended?)
    ensures WorldOf(ProcStep(size, s, o, e), o).unfinished == WorldOf(s, o).unfinished
  {
    hide ProcStep, HasInvocation;
    ProcSends(size, s, o, e);
  }

  lemma FinishPoisoned(size: Ledger -> nat, s: System, o: Owner, io: Io)
    requires CanStep(s, o) && s.procs[o].pc.Ended? && s.b.poisoned
    ensures WorldOf(ProcStep(size, s, o, Finish(io)), o).unfinished == WorldOf(s, o).unfinished
  {
  }

  lemma UnfinishedKept(e: Encoding, s: System, v: Event, o: Owner)
    requires RunInv(s) && FinishesFit(e, s)
    ensures WorldOf(Apply(SizeOf(e), s, v), o).unfinished == WorldOf(s, o).unfinished
  {
    hide ProcStep, OwnerInv, OwnersInv, ReserveStep;
    if v.ProcMoves? && v.owner == o && v.step.Finish? && CanStep(s, o) && s.procs[o].pc.Ended? {
      if s.b.poisoned {
        FinishPoisoned(SizeOf(e), s, o, v.step.io);
      } else {
        FinishSaved(SizeOf(e), s, o, v.step.io);
      }
    } else {
      UnfinishedSame(SizeOf(e), s, v, o);
    }
  }

  lemma CapacityKept(e: Encoding, s: System, v: Event, b: Budget)
    requires RunInv(s) && CapacityInv(e, s, b) && Disciplined(s, v, b)
    ensures CapacityInv(e, Apply(SizeOf(e), s, v), NextBudget(s, v, Apply(SizeOf(e), s, v).b.disk, b))
  {
    hide Apply, NextBudget, Disciplined, OpenRecord, TidyRecord, RoomInv, FinishesFit;
    var t := Apply(SizeOf(e), s, v);
    FinishesCovered(e, s, b);
    ApplyKeeps(SizeOf(e), s, v);
    TextsKept(SizeOf(e), s, v);
    WrittenTidy(SizeOf(e), s, v);
    RoomKept(e, s, v, b);
    forall o ensures WorldOf(t, o).unfinished == {} {
      UnfinishedKept(e, s, v, o);
    }
    if t.up && !t.b.poisoned {
      forall o, n | Record(t.b.disk, o, n) ensures OpenRecord(n, ProcOf(t, o)) {
        OpenKept(e, s, v, o, n);
      }
    }
  }

  lemma TextsKept(size: Ledger -> nat, s: System, e: Event)
    requires SystemInv(s) && TextsLedger(s.b.mem) && TextsLedger(s.b.disk) && ProcsPrepared(s)
    ensures var t := Apply(size, s, e); TextsLedger(t.b.mem) && TextsLedger(t.b.disk) && ProcsPrepared(t)
  {
    hide Apply, Writes;
    ApplyKeeps(size, s, e);
    DiskWritten(size, s, e);
    PreparedKept(size, s, e);
    if Apply(size, s, e).b.disk != s.b.disk { WritesTexts(s, e, Apply(size, s, e).b.disk); }
  }

  /** The budget left after a run. */
  ghost function BudgetAfter(size: Ledger -> nat, s: System, events: seq<Event>, b: Budget): Budget {
    if events == [] then b
    else
      var last := |events| - 1;
      NextBudget(Run(size, s, events[..last]), events[last], Run(size, s, events).b.disk, BudgetAfter(size, s, events[..last], b))
  }

  /** A run whose callers use no more than one new key of each kind per owner between ordinary changes. */
  ghost predicate DisciplinedRun(size: Ledger -> nat, s: System, events: seq<Event>, b: Budget) {
    events != [] ==>
      var last := |events| - 1;
      && DisciplinedRun(size, s, events[..last], b)
      && Disciplined(Run(size, s, events[..last]), events[last], BudgetAfter(size, s, events[..last], b))
  }

  lemma {:induction false} CapacityRun(e: Encoding, s: System, events: seq<Event>, b: Budget)
    requires RunInv(s) && CapacityInv(e, s, b) && DisciplinedRun(SizeOf(e), s, events, b)
    ensures CapacityInv(e, Run(SizeOf(e), s, events), BudgetAfter(SizeOf(e), s, events, b))
  {
    hide Apply, CapacityInv, RunInv, Disciplined, NextBudget;
    if events != [] {
      var last := |events| - 1;
      CapacityRun(e, s, events[..last], b);
      RunKeeps(SizeOf(e), s, events[..last]);
      CapacityKept(e, Run(SizeOf(e), s, events[..last]), events[last], BudgetAfter(SizeOf(e), s, events[..last], b));
    }
  }

  const NO_BUDGET := Budget({}, {})

  lemma InitialCapacity(e: Encoding, configDigest: string, now: int)
    ensures CapacityInv(e, Initial(configDigest, now), NO_BUDGET)
  {
    var s := Initial(configDigest, now);
    assert Awaiting(s) == {};
    assert s.b.disk.sessions == map[];
  }

  /**
   In any disciplined run from an empty store, with any crashes: whatever reserved change is
   asked for next, by a disciplined event, fits into the ledger.
   */
  lemma ReserveSuffices(e: Encoding, configDigest: string, now: int, events: seq<Event>, v: Event, l: Ledger)
    requires now > 0 && DisciplinedRun(SizeOf(e), Initial(configDigest, now), events + [v], NO_BUDGET)
    requires var s := Run(SizeOf(e), Initial(configDigest, now), events);
             s.b.mem == s.b.disk && Writes(s, v, l) && !Ordinary(s, v)
    ensures LedgerBytes(e, l) <= MAX_LEDGER_BYTES
  {
    hide Apply, Writes, Disciplined, NextBudget, LedgerBytes;
    var s0 := Initial(configDigest, now);
    assert (events + [v])[..|events|] == events;
    InitialCapacity(e, configDigest, now);
    Reachable(SizeOf(e), configDigest, now, []);
    assert Run(SizeOf(e), s0, []) == s0;
    Reachable(SizeOf(e), configDigest, now, events);
    CapacityRun(e, s0, events, NO_BUDGET);
    ReservedFits(e, Run(SizeOf(e), s0, events), v, BudgetAfter(SizeOf(e), s0, events, NO_BUDGET), l);
  }
}
