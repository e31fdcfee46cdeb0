/** Tool results are used once, by the prompt they were issued to, and name exactly the issued calls. */
module BrokerContinuation {
  import opened Wrappers
  import opened Text
  import opened BrokerLedger
  import opened BrokerChanges
  import opened BrokerValidity
  import opened BrokerAcceptance
  import opened BrokerSystem
  import opened BrokerInvariant
  import opened BrokerSteps
  import opened BrokerSafety
  import opened BrokerMoves
  import opened BrokerEvents
  import opened BrokerRuns
  import opened BrokerTheorems
  import opened BrokerWrites
  import opened BrokerAuthority

  // ---------------------------------------------------------------------------
  // What a continued response can still be used for
  // ---------------------------------------------------------------------------

  predicate CompletedLink(m: Session, a: string) {
    a in m.responses && m.responses[a].completed
  }

  /** Nothing more can be admitted as a continuation of response `a`, unless its prompt was left unfinished. */
  ghost predicate Spent(m: Session, a: string, p: Option<Proc>, unfinished: set<PromptKey>)
    requires CompletedLink(m, a)
  {
    var k := m.responses[a].prompt;
    && k in m.prompts
    && (|| m.prompts[k].closing || m.prompts[k].lastAlias != a || k in unfinished
        || (p.Some? && p.value.prompt == k && p.value.pc != Ended(Success)))
  }

  ghost predicate ContinuedInv(s: System, o: Owner) {
    var w := WorldOf(s, o);
    forall a :: a in w.continued ==>
      && o in s.b.disk.sessions && CompletedLink(s.b.disk.sessions[o], a)
      && (w.continued[a] <= 1 || s.b.disk.sessions[o].responses[a].prompt in w.unfinished)
      && (s.up && !s.b.poisoned ==> Spent(s.b.disk.sessions[o], a, ProcOf(s, o), w.unfinished))
  }

  lemma CompletedStays(m: Session, n: Session, a: string)
    requires SessionAdvances(m, n) && CompletedLink(m, a)
    ensures CompletedLink(n, a) && n.responses[a] == m.responses[a]
  {
    assert LinkAdvances(m.responses[a], n.responses[a]);
  }

  /** How a request of the prompt can have moved, for a continuation to stay spent. */
  ghost predicate StillSpent(m: Session, n: Session, k: PromptKey, p: Option<Proc>, q: Option<Proc>, unfinished: set<PromptKey>) {
    p.Some? && p.value.prompt == k && p.value.pc != Ended(Success) ==>
      || (q.Some? && q.value.prompt == k && q.value.pc != Ended(Success))
      || (k in n.prompts && (n.prompts[k].closing || Unfinished(m, n.prompts[k].lastAlias)))
      || k in unfinished
  }

  lemma SpentStays(m: Session, n: Session, a: string, p: Option<Proc>, q: Option<Proc>, before: set<PromptKey>, after: set<PromptKey>)
    requires SessionAdvances(m, n) && CompletedLink(m, a) && Spent(m, a, p, before) && before <= after
    requires StillSpent(m, n, m.responses[a].prompt, p, q, after)
    ensures CompletedLink(n, a) && Spent(n, a, q, after)
  {
    CompletedStays(m, n, a);
    assert PromptAdvances(m.prompts[m.responses[a].prompt], n.prompts[m.responses[a].prompt]);
  }

  // ---------------------------------------------------------------------------
  // The request of an owner, event by event
  // ---------------------------------------------------------------------------

  lemma CompletedAlias(m: Session, k: PromptKey, q: nat, r: Summary, aliases: seq<string>, now: int)
    requires HasInvocation(m, k, q) && |aliases| == |r.calls| && CompleteChange(m, k, q, r, aliases, now).Ok?
    requires !CompletedLink(m, m.prompts[k].invocations[q].alias)
    ensures k in CompleteChange(m, k, q, r, aliases, now).value.prompts
            && Unfinished(m, CompleteChange(m, k, q, r, aliases, now).value.prompts[k].lastAlias)
  {
  }

  lemma StreamingUnfinished(s: System, o: Owner)
    requires SystemInv(s) && CanStep(s, o) && s.procs[o].pc.Streaming?
    ensures !CompletedLink(s.b.mem.sessions[o],
                           s.b.mem.sessions[o].prompts[s.procs[o].prompt].invocations[s.procs[o].seqNo].alias)
  {
    RecordNow(s, o, s.b.mem.sessions[o]);
    StreamingAccepted(s.b.mem.sessions[o], s.procs[o], WorldOf(s, o));
    AcceptedFacts(s.b.mem.sessions[o], o, s.procs[o].prompt, s.procs[o].seqNo);
  }

  lemma CompleteSpent(size: Ledger -> nat, s: System, o: Owner, r: Summary, aliases: seq<string>, io: Io, t: System)
    requires SystemInv(s) && CanStep(s, o) && s.procs[o].pc.Streaming? && |aliases| == |r.calls| && FreshAliases(aliases)
    requires t == ProcStep(size, s, o, Complete(r, aliases, io)) && t.up && !t.b.poisoned
    ensures o in t.b.mem.sessions && o in t.procs && t.procs[o].prompt == s.procs[o].prompt
    ensures t.procs[o].pc == Ended(Success) ==>
              s.procs[o].prompt in t.b.mem.sessions[o].prompts
              && Unfinished(s.b.mem.sessions[o], t.b.mem.sessions[o].prompts[s.procs[o].prompt].lastAlias)
  {
    hide OwnerInv, AliasValid, SideInv, SystemInv, FinishChange, LedgerInv, FreshRemote, ProcessInv, CompleteChange;
    var p, m := s.procs[o], s.b.mem.sessions[o];
    var next := CompleteChange(m, p.prompt, p.seqNo, r, aliases, s.now);
    CommitOutcome(size, s.b, true, OnSession(s.b.mem, o, next), io);
    StreamingUnfinished(s, o);
    if next.Ok? { CompletedAlias(m, p.prompt, p.seqNo, r, aliases, s.now); }
  }

  lemma FinishSpent(size: Ledger -> nat, s: System, o: Owner, io: Io, t: System)
    requires CanStep(s, o) && s.procs[o].pc.Ended? && s.procs[o].pc.outcome != Success
    requires t == ProcStep(size, s, o, Finish(io)) && !t.b.poisoned
    ensures var k := s.procs[o].prompt;
            k in WorldOf(t, o).unfinished
            || (o in t.b.mem.sessions && k in t.b.mem.sessions[o].prompts && t.b.mem.sessions[o].prompts[k].closing)
  {
  }

  /** The request is still there, and has not come to a success that it had not before. */
  ghost predicate Unended(s: System, t: System, o: Owner) {
    && o in s.procs && o in t.procs && t.procs[o].prompt == s.procs[o].prompt
    && (s.procs[o].pc != Ended(Success) ==> t.procs[o].pc != Ended(Success))
  }

  lemma SetsUnended(s: System, o: Owner, pc: Pc)
    requires o in s.procs
    ensures Unended(s, s, o) && (pc != Ended(Success) ==> Unended(s, SetPc(s, o, pc), o))
  {
  }

  lemma WorldUnended(s: System, o: Owner, w: World, pc: Pc)
    requires o in s.procs && pc != Ended(Success)
    ensures o in SetWorld(s, o, w).procs && Unended(s, SetPc(SetWorld(s, o, w), o, pc), o)
  {
  }

  lemma CommitUnended(size: Ledger -> nat, s: System, w: World, ordinary: bool, o: Owner, next: Result<Session, Error>,
                      io: Io, done: Pc, failed: Pc)
    requires o in s.procs && done != Ended(Success) && failed != Ended(Success)
    ensures Unended(s, ProcCommit(size, s, ordinary, o, next, io, done, failed), o)
    ensures o in SetWorld(s, o, w).procs && Unended(s, ProcCommit(size, SetWorld(s, o, w), ordinary, o, next, io, done, failed), o)
  {
    hide CommitSession;
  }

  lemma CommitEvents(size: Ledger -> nat, s: System, o: Owner, e: ProcEvent)
    requires CanStep(s, o) && Commits(e) && !e.Identity? && !e.Complete? && !e.Finish?
    ensures Unended(s, ProcStep(size, s, o, e), o)
  {
    hide CommitSession, CreateIntentChange, InferIntentChange, RefusalChange, CreateResultChange, HasInvocation, RequestCancelled, ProcCommit, SetPc, Unended;
    SetsUnended(s, o, Ended(Failed));
    forall ordinary, next, io, done, failed | done != Ended(Success) && failed != Ended(Success)
      ensures Unended(s, ProcCommit(size, s, ordinary, o, next, io, done, failed), o)
    {
      CommitUnended(size, s, NOTHING, ordinary, o, next, io, done, failed);
    }
  }

  lemma IdentityEvents(size: Ledger -> nat, s: System, o: Owner, e: ProcEvent)
    requires CanStep(s, o) && e.Identity?
    ensures Unended(s, ProcStep(size, s, o, e), o)
  {
    hide CommitSession, IdentityChange, AliasValid, IdentifierValid, AckedInfer, KeyOf, ProcCommit, SetPc, SetWorld, Unended;
    SetsUnended(s, o, Ended(AcceptanceUnknown));
    forall w, ordinary, next, io, done, failed | done != Ended(Success) && failed != Ended(Success)
      ensures o in SetWorld(s, o, w).procs && Unended(s, ProcCommit(size, SetWorld(s, o, w), ordinary, o, next, io, done, failed), o)
    {
      CommitUnended(size, s, w, ordinary, o, next, io, done, failed);
    }
  }

  lemma SilentEvents(size: Ledger -> nat, s: System, o: Owner, e: ProcEvent)
    requires CanStep(s, o) && !Commits(e)
    ensures Unended(s, ProcStep(size, s, o, e), o)
  {
    hide CommitSession, FreshRemote, UuidValid, HasInvocation, RequestCancelled, KeyOf, SentInfer, SentCreate, AckedCreate, RefusedInfer, RefusedCreate, SetPc, SetWorld, Unended;
    SetsUnended(s, o, Ended(Failed));
    forall pc | pc != Ended(Success) ensures Unended(s, SetPc(s, o, pc), o) { SetsUnended(s, o, pc); }
    forall w, pc | pc != Ended(Success) ensures o in SetWorld(s, o, w).procs && Unended(s, SetPc(SetWorld(s, o, w), o, pc), o) {
      WorldUnended(s, o, w, pc);
    }
  }

  lemma OtherProcEvents(size: Ledger -> nat, s: System, o: Owner, e: ProcEvent)
    requires CanStep(s, o) && !e.Complete? && !e.Finish?
    ensures Unended(s, ProcStep(size, s, o, e), o)
  {
    hide ProcStep;
    if e.Identity? { IdentityEvents(size, s, o, e); } else if Commits(e) { CommitEvents(size, s, o, e); } else { SilentEvents(size, s, o, e); }
  }

  lemma CompleteElse(size: Ledger -> nat, s: System, o: Owner, r: Summary, aliases: seq<string>, io: Io)
    requires CanStep(s, o) && !(s.procs[o].pc.Streaming? && |aliases| == |r.calls| && FreshAliases(aliases))
    ensures ProcStep(size, s, o, Complete(r, aliases, io)) == s
  {
  }

  lemma ProcStillSpent(size: Ledger -> nat, s: System, o: Owner, e: ProcEvent, k: PromptKey, t: System)
    requires SystemInv(s) && CanStep(s, o) && t == ProcStep(size, s, o, e) && t.up && !t.b.poisoned && o in t.b.mem.sessions
    ensures StillSpent(s.b.mem.sessions[o], t.b.mem.sessions[o], k, ProcOf(s, o), ProcOf(t, o), WorldOf(t, o).unfinished)
  {
    hide OwnerInv, ProcessInv, SystemInv;
    match e
    case Complete(r, aliases, io) =>
      if s.procs[o].pc.Streaming? && |aliases| == |r.calls| && FreshAliases(aliases) {
        CompleteSpent(size, s, o, r, aliases, io, t);
      } else {
        CompleteElse(size, s, o, r, aliases, io);
      }
    case Finish(io) =>
      if s.procs[o].pc.Ended? && s.procs[o].pc.outcome != Success { FinishSpent(size, s, o, io, t); }
    case _ => OtherProcEvents(size, s, o, e);
  }

  /** An event that is not a step of the owner's own request leaves the request alone, or ends the process. */
  lemma RequestStays(size: Ledger -> nat, s: System, e: Event, o: Owner)
    requires o in s.procs && s.procs.Keys == s.b.active.Keys && !(e.ProcMoves? && e.owner == o)
    ensures ProcOf(Apply(size, s, e), o) == ProcOf(s, o) || !Apply(size, s, e).up
  {
    hide Apply, ProcStep, WorkerStep, ReserveStep, HasInvocation, ParsedContext;
    match e
    case ProcMoves(x, step) =>
      ProcMovesApply(size, s, x, step);
      if CanStep(s, x) { ProcStepOthers(size, s, x, step, o); }
    case WorkerMoves(x, move) =>
      WorkerMovesApply(size, s, x, move);
      if s.up && x in s.workers && x in s.b.mem.sessions { WorkerStepProcs(size, s, x, move); }
    case Reserving(c, r, normal, at, io) =>
      ReservingApply(size, s, c, r, normal, at, io);
      ReserveShape(size, s, c, r, normal, io);
      ReserveBrokerShape(size, s.b, c, r, normal, s.now, io);
    case _ => OthersKeepProcs(size, s, e);
  }

  lemma ProcStepOthers(size: Ledger -> nat, s: System, x: Owner, e: ProcEvent, o: Owner)
    requires CanStep(s, x) && o != x
    ensures ProcOf(ProcStep(size, s, x, e), o) == ProcOf(s, o)
  {
    hide ProcStep;
    ProcOwnOnly(size, s, x, e, o);
  }

  lemma OthersKeepProcs(size: Ledger -> nat, s: System, e: Event)
    requires !e.ProcMoves? && !e.WorkerMoves? && !e.Reserving?
    ensures Apply(size, s, e).procs == s.procs || !Apply(size, s, e).up
  {
    hide Sweep, Control, CloseOwnerPrompt, PinPrincipal, Reopen, LedgerValid, ParsedContext, ProcStep, WorkerStep, ReserveStep, DigestValid, HasInvocation;
  }

  /** The prompts left unfinished only ever grow, and continuations are counted by admission alone. */
  lemma ProcCounts(size: Ledger -> nat, s: System, x: Owner, e: ProcEvent)
    requires CanStep(s, x)
    ensures var w, v := WorldOf(s, x), WorldOf(ProcStep(size, s, x, e), x);
            w.unfinished <= v.unfinished && v.continued == w.continued
  {
    hide ProcStep, HasInvocation;
    if e.Finish? && s.procs[x].pc.Ended? { EndSends(size, s, x, e.io); } else { ProcSends(size, s, x, e); }
  }

  lemma WorkerCounts(size: Ledger -> nat, s: System, x: Owner, e: WorkerEvent)
    requires x in s.workers && x in s.b.mem.sessions
    ensures var w, v := WorldOf(s, x), WorldOf(WorkerStep(size, s, x, e), x);
            v.unfinished == w.unfinished && v.continued == w.continued
  {
    hide WorkerStep;
    WorkerSends(size, s, x, e);
  }

  lemma CountsStay(size: Ledger -> nat, s: System, e: Event, o: Owner)
    ensures var w, v := WorldOf(s, o), WorldOf(Apply(size, s, e), o);
            w.unfinished <= v.unfinished
            && (!(e.Reserving? && e.context.owner == o) ==> v.continued == w.continued)
  {
    hide Apply, ProcStep, WorkerStep, ReserveStep, HasInvocation, ParsedContext;
    match e
    case ProcMoves(x, step) =>
      ProcMovesApply(size, s, x, step);
      if CanStep(s, x) {
        if x == o { ProcCounts(size, s, x, step); } else { ProcElsewhere(size, s, x, step, o); }
      }
    case WorkerMoves(x, move) =>
      WorkerMovesApply(size, s, x, move);
      if s.up && x in s.workers && x in s.b.mem.sessions {
        if x == o { WorkerCounts(size, s, x, move); } else { WorkerElsewhere(size, s, x, move, o); }
      }
    case Reserving(c, r, normal, at, io) =>
      ReservingApply(size, s, c, r, normal, at, io);
      ReserveShape(size, s, c, r, normal, io);
    case _ => QuietEvent(size, s, e);
  }

  // ---------------------------------------------------------------------------
  // Admission of a continuation
  // ---------------------------------------------------------------------------

  lemma FunctionsComplete(m: Session, o: Owner, a: string)
    requires SessionValid(m, o) && a in m.responses && m.responses[a].hasFunctions
    ensures m.responses[a].completed && m.responses[a].prompt in m.prompts
  {
    var k := m.responses[a].prompt;
    var q :| Produced(m, k, q, a);
    assert PromptValid(m.prompts[k], k, m);
    assert InvocationValid(m.prompts[k].invocations[q], q, k, m.prompts[k].settled, m);
  }

  /** What admitting tool results takes: the latest response of the same open prompt, with functions. */
  lemma ContinuationAdmitted(m: Session, o: Owner, c: Context, r: Request, normal: bool, now: int)
    requires SessionValid(m, o) && ReserveChange(m, c, r, normal, now).Ok? && r.input.Items?
    ensures r.previous in m.responses && m.responses[r.previous].prompt == c.prompt && m.responses[r.previous].hasFunctions
    ensures CompletedLink(m, r.previous) && c.prompt in m.prompts
    ensures !m.prompts[c.prompt].closing && m.prompts[c.prompt].lastAlias == r.previous
    ensures ResultsAccepted(r.input.items, m.responses[r.previous].callIDs)
  {
    ReserveStages(m, c, r, normal, now);
    AdmittedResults(m, c, r, normal, now);
    FunctionsComplete(m, o, r.previous);
  }

  lemma AdmittedResults(m: Session, c: Context, r: Request, normal: bool, now: int)
    requires ReserveChange(m, c, r, normal, now).Ok? && r.input.Items?
    ensures r.previous in m.responses && m.responses[r.previous].prompt == c.prompt && m.responses[r.previous].hasFunctions
    ensures c.prompt in m.prompts && !m.prompts[c.prompt].closing && m.prompts[c.prompt].lastAlias == r.previous
    ensures ResultsAccepted(r.input.items, m.responses[r.previous].callIDs)
  {
    ReserveStages(m, c, r, normal, now);
  }

  lemma ReserveCounts(size: Ledger -> nat, s: System, c: Context, r: Request, normal: bool, io: Io)
    ensures var t := ReserveStep(size, s, c, r, normal, io);
            var w, v := WorldOf(s, c.owner), WorldOf(t, c.owner);
            || v.continued == w.continued
            || (&& v.continued == Bumped(w.continued, r.previous) && r.input.Items? && t.b.disk != s.b.disk
                && ReserveNext(s.b.mem, c, r, normal, s.now).Ok?
                && t.b.disk == ReserveNext(s.b.mem, c, r, normal, s.now).value.0)
  {
    hide ReserveChange, EnsureSession, Commit, ReserveNext, PutSession, Reserve;
  }

  lemma ReserveOwner(size: Ledger -> nat, s: System, c: Context, r: Request, normal: bool, io: Io)
    requires ReserveStep(size, s, c, r, normal, io).b.disk != s.b.disk
    ensures !s.b.poisoned && !s.b.stopped && c.owner !in s.b.active
    ensures var t := ReserveStep(size, s, c, r, normal, io);
            t.b.poisoned || t.procs == s.procs[c.owner := Proc(c.prompt, c.sequence, c.operationID, Started)]
  {
    hide ReserveNext;
  }

  // ---------------------------------------------------------------------------
  // Every event
  // ---------------------------------------------------------------------------

  lemma DurableStays(s: System, t: System, o: Owner, a: string)
    requires Forward(s.b.disk, t.b.disk) && o in s.b.disk.sessions && CompletedLink(s.b.disk.sessions[o], a)
    ensures o in t.b.disk.sessions && CompletedLink(t.b.disk.sessions[o], a)
    ensures t.b.disk.sessions[o].responses[a] == s.b.disk.sessions[o].responses[a]
  {
    DiskAdvances(s, t, o);
    CompletedStays(s.b.disk.sessions[o], t.b.disk.sessions[o], a);
  }

  lemma RestartSpent(size: Ledger -> nat, s: System, io: Io, o: Owner, a: string)
    requires RunInv(s) && !s.up && RestartStep(size, s, io).up && !RestartStep(size, s, io).b.poisoned
    requires o in s.b.disk.sessions && CompletedLink(s.b.disk.sessions[o], a)
    ensures var t := RestartStep(size, s, io);
            o in t.b.disk.sessions && CompletedLink(t.b.disk.sessions[o], a)
            && Spent(t.b.disk.sessions[o], a, ProcOf(t, o), WorldOf(t, o).unfinished)
  {
    var t := RestartStep(size, s, io);
    RestartKeeps(size, s, io);
    StepForward(s.b, t.b);
    DurableStays(s, t, o, a);
    RecordNow(s, o, s.b.disk.sessions[o]);
    LinkedPrompt(s.b.disk.sessions[o], o, a);
    RestartCloses(size, s, io, o, s.b.disk.sessions[o].responses[a].prompt);
    RecordNow(t, o, t.b.disk.sessions[o]);
    SettledCloses(t.b.disk.sessions[o], o);
  }

  lemma LinkedPrompt(m: Session, o: Owner, a: string)
    requires SessionValid(m, o) && a in m.responses
    ensures m.responses[a].prompt in m.prompts
  {
    var q :| Produced(m, m.responses[a].prompt, q, a);
  }

  lemma SettledCloses(m: Session, o: Owner)
    requires SessionValid(m, o)
    ensures forall k :: k in m.prompts && m.prompts[k].settled ==> m.prompts[k].closing
  {
    forall k | k in m.prompts && m.prompts[k].settled ensures m.prompts[k].closing {
      assert PromptValid(m.prompts[k], k, m);
    }
  }

  lemma EventStillSpent(size: Ledger -> nat, s: System, e: Event, o: Owner, k: PromptKey)
    requires SystemInv(s) && s.up && !s.b.poisoned && o in s.b.mem.sessions
    requires var t := Apply(size, s, e); t.up && !t.b.poisoned && o in t.b.mem.sessions
    ensures var t := Apply(size, s, e);
            StillSpent(s.b.mem.sessions[o], t.b.mem.sessions[o], k, ProcOf(s, o), ProcOf(t, o), WorldOf(t, o).unfinished)
  {
    hide Apply, OwnerInv, OwnersInv, LedgerInv, HasInvocation, ProcStep;
    if o in s.procs {
      if e.ProcMoves? && e.owner == o {
        ProcMovesApply(size, s, o, e.step);
        if CanStep(s, o) { ProcStillSpent(size, s, o, e.step, k, Apply(size, s, e)); }
      } else {
        RequestStays(size, s, e, o);
      }
    }
  }

  /** A response that was continued before stays spent. */
  lemma OldContinuation(size: Ledger -> nat, s: System, e: Event, o: Owner, a: string)
    requires RunInv(s) && ContinuedInv(s, o) && a in WorldOf(s, o).continued
    ensures var t := Apply(size, s, e);
            && o in t.b.disk.sessions && CompletedLink(t.b.disk.sessions[o], a)
            && t.b.disk.sessions[o].responses[a] == s.b.disk.sessions[o].responses[a]
            && (t.up && !t.b.poisoned ==> Spent(t.b.disk.sessions[o], a, ProcOf(t, o), WorldOf(t, o).unfinished))
  {
    hide LedgerInv, ProcStep, OwnerInv, ReserveStep, RestartStep, CompleteChange, WorkerStep, CaptureStep;
    var t := Apply(size, s, e);
    ApplyKeeps(size, s, e);
    StepForward(s.b, t.b);
    DurableStays(s, t, o, a);
    if t.up && !t.b.poisoned {
      if !s.up {
        RestartSpent(size, s, e.io, o, a);
      } else {
        OldSpent(size, s, e, o, a);
      }
    }
  }

  lemma OldSpent(size: Ledger -> nat, s: System, e: Event, o: Owner, a: string)
    requires SystemInv(s) && s.up && ContinuedInv(s, o) && a in WorldOf(s, o).continued
    requires var t := Apply(size, s, e);
             t.up && !t.b.poisoned && t.b.mem == t.b.disk && Forward(s.b.disk, t.b.disk) && CompletedLink(Before(t.b.disk, o), a)
    ensures var t := Apply(size, s, e);
            Spent(Before(t.b.disk, o), a, ProcOf(t, o), WorldOf(t, o).unfinished)
  {
    hide Apply, ProcStep, OwnerInv;
    var t := Apply(size, s, e);
    if s.b.poisoned {
      StillPoisoned(size, s, e);
    } else {
      DiskAdvances(s, t, o);
      EventStillSpent(size, s, e, o, s.b.disk.sessions[o].responses[a].prompt);
      CountsStay(size, s, e, o);
      SpentStays(s.b.disk.sessions[o], t.b.disk.sessions[o], a, ProcOf(s, o), ProcOf(t, o),
                 WorldOf(s, o).unfinished, WorldOf(t, o).unfinished);
    }
  }

  lemma StillPoisoned(size: Ledger -> nat, s: System, e: Event)
    requires SystemInv(s) && s.up && s.b.poisoned
    ensures !Apply(size, s, e).up || Apply(size, s, e).b.poisoned
  {
    if !e.Crash? { EventFrozen(size, s, e); }
  }

  /** A response continued by an admission that reached the disk. */
  lemma NewContinuation(size: Ledger -> nat, s: System, c: Context, r: Request, normal: bool, io: Io)
    requires RunInv(s) && s.up && Admissible(Responses, c) && ContinuedInv(s, c.owner)
    requires var t := ReserveStep(size, s, c, r, normal, io);
             && t.b.disk != s.b.disk && r.input.Items? && ReserveNext(s.b.mem, c, r, normal, s.now).Ok?
             && t.b.disk == ReserveNext(s.b.mem, c, r, normal, s.now).value.0
    ensures var t := ReserveStep(size, s, c, r, normal, io);
            var w := WorldOf(s, c.owner);
            && c.owner in t.b.disk.sessions && CompletedLink(t.b.disk.sessions[c.owner], r.previous)
            && (r.previous in w.continued ==> t.b.disk.sessions[c.owner].responses[r.previous].prompt in w.unfinished)
            && (!t.b.poisoned ==> Spent(t.b.disk.sessions[c.owner], r.previous, ProcOf(t, c.owner), w.unfinished))
  {
    var t := ReserveStep(size, s, c, r, normal, io);
    var o := c.owner;
    ReserveKeeps(size, s, c, r, normal, io);
    StepForward(s.b, t.b);
    ReserveOwner(size, s, c, r, normal, io);
    AdmittedKnown(s.b.mem, c, r, normal, s.now);
    RecordNow(s, o, s.b.mem.sessions[o]);
    ContinuationAdmitted(s.b.mem.sessions[o], o, c, r, normal, s.now);
    DurableStays(s, t, o, r.previous);
    RecordNow(t, o, t.b.disk.sessions[o]);
    LinkedPrompt(t.b.disk.sessions[o], o, r.previous);
  }

  lemma AdmittedKnown(l: Ledger, c: Context, r: Request, normal: bool, now: int)
    requires ReserveNext(l, c, r, normal, now).Ok? && r.input.Items?
    ensures c.owner in l.sessions && ReserveChange(l.sessions[c.owner], c, r, normal, now).Ok?
  {
    if c.owner !in l.sessions { AdmittedResults(EmptySession(c.owner), c, r, normal, now); }
  }

  lemma ContinuedKept(size: Ledger -> nat, s: System, e: Event, o: Owner)
    requires RunInv(s) && ContinuedInv(s, o)
    ensures ContinuedInv(Apply(size, s, e), o)
  {
    hide Apply, OwnersInv, ReserveStep, WorldOf, ParsedContext, LedgerInv, Control, SessionAdvances;
    var t := Apply(size, s, e);
    var w, v := WorldOf(s, o), WorldOf(t, o);
    CountsStay(size, s, e, o);
    forall a | a in w.continued
      ensures && o in t.b.disk.sessions && CompletedLink(t.b.disk.sessions[o], a)
              && t.b.disk.sessions[o].responses[a] == s.b.disk.sessions[o].responses[a]
              && (t.up && !t.b.poisoned ==> Spent(t.b.disk.sessions[o], a, ProcOf(t, o), v.unfinished))
    {
      OldContinuation(size, s, e, o, a);
    }
    if v.continued != w.continued {
      ReservedContinuation(size, s, e);
    }
  }

  lemma ReservedContinuation(size: Ledger -> nat, s: System, e: Event)
    requires RunInv(s) && e.Reserving? && ContinuedInv(s, e.context.owner)
    requires WorldOf(Apply(size, s, e), e.context.owner).continued != WorldOf(s, e.context.owner).continued
    ensures var t := Apply(size, s, e);
            var o, a := e.context.owner, e.request.previous;
            var w, v := WorldOf(s, o), WorldOf(t, o);
            && v.continued == Bumped(w.continued, a) && v.unfinished == w.unfinished
            && o in t.b.disk.sessions && CompletedLink(t.b.disk.sessions[o], a)
            && (a in w.continued ==> t.b.disk.sessions[o].responses[a].prompt in w.unfinished)
            && (!t.b.poisoned ==> Spent(t.b.disk.sessions[o], a, ProcOf(t, o), w.unfinished))
  {
    hide ReserveStep, Spent, CompletedLink, SystemInv, ContinuedInv, Forward, RunInv, LedgerInv, ProcStep, OwnerInv, OwnersInv, ParsedContext;
    ParsedAdmissible(Responses, e.context, e.parsedAt);
    ReserveShape(size, s, e.context, e.request, e.outputsNormal, e.io);
    ReserveCounts(size, s, e.context, e.request, e.outputsNormal, e.io);
    NewContinuation(size, s, e.context, e.request, e.outputsNormal, e.io);
  }

  // ---------------------------------------------------------------------------
  // Translation of tool results
  // ---------------------------------------------------------------------------

  function Named(items: seq<Item>): set<string> {
    set i | 0 <= i < |items| :: CallID(items[i])
  }

  lemma {:induction false} DistinctNames(items: seq<Item>)
    requires DistinctCalls(items)
    ensures |Named(items)| == |items|
  {
    if items != [] {
      var n := |items| - 1;
      DistinctNames(items[..n]);
      assert Named(items) == Named(items[..n]) + {CallID(items[n])} by {
        forall i | 0 <= i < |items| ensures CallID(items[i]) in Named(items[..n]) + {CallID(items[n])} {
          if i < n { assert CallID(items[..n][i]) in Named(items[..n]); }
        }
      }
    }
  }

  lemma {:induction false} SameSize<T>(a: set<T>, b: set<T>)
    requires a <= b && |a| == |b|
    ensures a == b
  {
    if a != {} {
      var x :| x in a;
      SameSize(a - {x}, b - {x});
    }
  }

  /** By counting: the accepted results name every issued alias, each once. */
  lemma ResultsCoverCalls(items: seq<Item>, callIDs: map<string, string>)
    requires ResultsAccepted(items, callIDs)
    ensures Named(items) == callIDs.Keys
  {
    DistinctNames(items);
    assert |callIDs.Keys| == |callIDs|;
    SameSize(Named(items), callIDs.Keys);
  }

  lemma ItemTranslated(item: Item, callIDs: map<string, string>)
    requires ResultItem(item, callIDs)
    ensures var sent := TranslateItem(item, callIDs);
            && CallID(item) in callIDs && CallID(sent) == callIDs[CallID(item)]
            && TextMember(sent, "output") == TextMember(item, "output")
            && sent.members.Keys == item.members.Keys
  {
  }

  lemma DistinctTranslated(items: seq<Item>, callIDs: map<string, string>)
    requires ResultsAccepted(items, callIDs) && Injective(callIDs)
    ensures DistinctCalls(TranslateItems(items, callIDs))
  {
    var sent := TranslateItems(items, callIDs);
    forall i, j | 0 <= i < j < |sent| ensures CallID(sent[i]) != CallID(sent[j]) {
      ItemTranslated(items[i], callIDs);
      ItemTranslated(items[j], callIDs);
    }
  }

  lemma NameTranslated(items: seq<Item>, callIDs: map<string, string>, i: nat)
    requires ResultsAccepted(items, callIDs) && i < |items|
    ensures |TranslateItems(items, callIDs)| == |items| && CallID(items[i]) in callIDs
    ensures CallID(TranslateItems(items, callIDs)[i]) == callIDs[CallID(items[i])]
  {
    ItemTranslated(items[i], callIDs);
  }

  lemma NamedTranslated(items: seq<Item>, callIDs: map<string, string>)
    requires ResultsAccepted(items, callIDs)
    ensures Named(TranslateItems(items, callIDs)) == callIDs.Values
  {
    hide TranslateItem, CallID, ResultItem, DistinctCalls;
    var sent := TranslateItems(items, callIDs);
    ResultsCoverCalls(items, callIDs);
    forall v | v in callIDs.Values ensures v in Named(sent) {
      var c :| c in callIDs && callIDs[c] == v;
      assert c in Named(items);
      var i :| 0 <= i < |items| && CallID(items[i]) == c;
      NameTranslated(items, callIDs, i);
    }
    forall i | 0 <= i < |sent| ensures CallID(sent[i]) in callIDs.Values {
      NameTranslated(items, callIDs, i);
    }
  }

  /** The provider gets one result for each call it issued, and each result as it was given. */
  lemma ResultsExact(items: seq<Item>, callIDs: map<string, string>)
    requires ResultsAccepted(items, callIDs) && Injective(callIDs)
    ensures var sent := TranslateItems(items, callIDs);
            && |sent| == |items| && DistinctCalls(sent) && Named(sent) == callIDs.Values
            && forall i :: 0 <= i < |items| ==>
                 && CallID(items[i]) in callIDs && CallID(sent[i]) == callIDs[CallID(items[i])]
                 && TextMember(sent[i], "output") == TextMember(items[i], "output")
                 && sent[i].members.Keys == items[i].members.Keys
  {
    DistinctTranslated(items, callIDs);
    NamedTranslated(items, callIDs);
    forall i | 0 <= i < |items|
      ensures && CallID(items[i]) in callIDs && CallID(TranslateItems(items, callIDs)[i]) == callIDs[CallID(items[i])]
              && TextMember(TranslateItems(items, callIDs)[i], "output") == TextMember(items[i], "output")
              && TranslateItems(items, callIDs)[i].members.Keys == items[i].members.Keys
    {
      ItemTranslated(items[i], callIDs);
    }
  }

  /** The call map of a completion pairs each fresh alias with the call it was made for. */
  lemma {:induction false} CallMapExact(calls: seq<string>, aliases: seq<string>)
    requires |calls| == |aliases| && forall i, j :: 0 <= i < j < |aliases| ==> aliases[i] != aliases[j]
    ensures var m := CallMap(calls, aliases);
            |m| == |calls| && (forall c :: c in m ==> c in aliases)
            && forall i :: 0 <= i < |calls| ==> aliases[i] in m && m[aliases[i]] == calls[i]
  {
    if calls != [] {
      var n := |calls| - 1;
      CallMapExact(calls[..n], aliases[..n]);
      var m := CallMap(calls[..n], aliases[..n]);
      assert aliases[n] !in m;
      forall i | 0 <= i < n ensures aliases[i] in m && m[aliases[i]] == calls[i] {
        assert aliases[..n][i] == aliases[i] && calls[..n][i] == calls[i];
      }
    }
  }

  /**
   Admitting tool results, in any run: the request that is sent continues the provider's own
   response, answers each call recorded for it exactly once and no other, and belongs to the
   prompt that was answered.
   */
  lemma ContinuationTranslated(size: Ledger -> nat, configDigest: string, now: int, events: seq<Event>, m: Session,
                               c: Context, r: Request, normal: bool)
    requires now > 0
    requires var s := Run(size, Initial(configDigest, now), events);
             Record(s.b.mem, c.owner, m) && ReserveChange(m, c, r, normal, s.now).Ok? && r.input.Items?
    ensures var s := Run(size, Initial(configDigest, now), events);
            var sent := ReserveChange(m, c, r, normal, s.now).value.1;
            && r.previous in m.responses && m.responses[r.previous].prompt == c.prompt
            && sent.previous == m.responses[r.previous].remoteID && sent.input.Items?
            && |sent.input.items| == |m.responses[r.previous].callIDs|
            && DistinctCalls(sent.input.items) && Named(sent.input.items) == m.responses[r.previous].callIDs.Values
  {
    hide Run;
    var s := Run(size, Initial(configDigest, now), events);
    Reachable(size, configDigest, now, events);
    RecordNow(s, c.owner, m);
    ContinuationAdmitted(m, c.owner, c, r, normal, s.now);
    SentTranslated(m, c, r, normal, s.now);
    ResultsExact(r.input.items, m.responses[r.previous].callIDs);
  }

  lemma SentTranslated(m: Session, c: Context, r: Request, normal: bool, now: int)
    requires ReserveChange(m, c, r, normal, now).Ok? && r.input.Items? && r.previous in m.responses
    requires ResultsAccepted(r.input.items, m.responses[r.previous].callIDs)
    ensures ReserveChange(m, c, r, normal, now).value.1
            == Request(Items(TranslateItems(r.input.items, m.responses[r.previous].callIDs)), m.responses[r.previous].remoteID)
  {
    ReserveStages(m, c, r, normal, now);
  }
}
