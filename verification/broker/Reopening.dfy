/**
 Whether a broker can reopen the ledger it wrote. Structure and texts always pass the restart
 check. Two inputs that admission lets through fail it: a provider call identifier with a space
 in it, and a settlement of a new prompt whose lease ends at the zero time.
 */
module BrokerReopening {
  import opened Wrappers
  import opened Text
  import opened BrokerLedger
  import opened BrokerChanges
  import opened BrokerValidity
  import opened BrokerSystem
  import opened BrokerInvariant
  import opened BrokerSteps
  import opened BrokerRequests
  import opened BrokerCleanup
  import opened BrokerMoves
  import opened BrokerEvents
  import opened BrokerRuns
  import opened BrokerTheorems
  import opened BrokerWrites
  import opened BrokerAuthority
  import opened BrokerContinuation

  // ---------------------------------------------------------------------------
  // Texts
  // ---------------------------------------------------------------------------

  ghost predicate TextsLedger(l: Ledger) {
    && (l.principal != "" ==> DigestValid(l.principal))
    && forall o, s :: Record(l, o, s) ==> SessionTexts(s)
  }

  /** The texts of a parsed request that end up in a record. */
  ghost predicate ContextTexts(c: Context) {
    && OwnerValid(c.owner) && SafeString(c.operationID, MAX_FIELD_BYTES) && DigestValid(c.bodyDigest)
    && (c.prompt.taskAttempt > 0 ==> PromptTexts(NewPrompt(c), c.prompt))
  }

  lemma ParsedTexts(path: Path, c: Context, at: int)
    requires ParsedContext(path, c, at)
    ensures ContextTexts(c) && (!path.Retire? ==> PromptTexts(NewPrompt(c), c.prompt))
  {
  }

  lemma RecordTexts(s: Session, path: Path, c: Context)
    requires SessionTexts(s) && SafeString(c.operationID, MAX_FIELD_BYTES) && RecordOperation(s, path, c).Ok?
    ensures SessionTexts(RecordOperation(s, path, c).value.0)
  {
  }

  lemma EnsureTexts(s: Session, c: Context)
    requires SessionTexts(s) && PromptTexts(NewPrompt(c), c.prompt) && EnsurePrompt(s, c).Ok?
    ensures SessionTexts(EnsurePrompt(s, c).value)
  {
  }

  /** Changing prompts without changing what they were asked leaves the texts alone. */
  ghost predicate SameBodies(p: Prompt, p1: Prompt) {
    && p1.identity == p.identity
    && forall q :: q in p1.invocations ==>
                     || (q in p.invocations && p1.invocations[q].bodyDigest == p.invocations[q].bodyDigest)
                     || DigestValid(p1.invocations[q].bodyDigest)
  }

  lemma PromptsChanged(s: Session, t: Session)
    requires SessionTexts(s) && t.owner == s.owner && t.operations == s.operations && t.responses == s.responses
    requires t.remoteID == s.remoteID && t.prompts.Keys == s.prompts.Keys
    requires forall k :: k in s.prompts ==> SameBodies(s.prompts[k], t.prompts[k])
    ensures SessionTexts(t)
  {
    forall k | k in t.prompts ensures PromptTexts(t.prompts[k], k) {
      assert PromptTexts(s.prompts[k], k);
    }
  }

  lemma LinkedTexts(s: Session, t: Session, alias: string, link: Link)
    requires SessionTexts(s) && LinkTexts(alias, link) && t == s.(responses := s.responses[alias := link])
    ensures SessionTexts(t)
  {
  }

  lemma RetireTexts(s: Session, c: Context)
    requires SessionTexts(s) && SafeString(c.operationID, MAX_FIELD_BYTES) && RetireChange(s, c).Ok?
    ensures SessionTexts(RetireChange(s, c).value)
  {
    RecordTexts(s, Retire, c);
    PromptsChanged(RecordOperation(s, Retire, c).value.0, RetireChange(s, c).value);
  }

  lemma SettleTexts(s: Session, c: Context)
    requires SessionTexts(s) && SafeString(c.operationID, MAX_FIELD_BYTES) && PromptTexts(NewPrompt(c), c.prompt)
    requires SettleChange(s, c).Ok?
    ensures SessionTexts(SettleChange(s, c).value)
  {
    hide RecordOperation, EnsurePrompt, SessionTexts, AddPrompt, PromptTexts;
    RecordTexts(s, Settle, c);
    var s1 := RecordOperation(s, Settle, c).value.0;
    EnsureTexts(s1, c);
    PromptsChanged(EnsurePrompt(s1, c).value, SettleChange(s, c).value);
  }

  lemma LeaseTexts(s: Session, k: PromptKey, p: Prompt)
    requires SessionTexts(s) && k in s.prompts && SameBodies(s.prompts[k], p)
    ensures SessionTexts(PutPrompt(s, k, p))
  {
    PromptsChanged(s, PutPrompt(s, k, p));
  }

  lemma RenewTexts(s: Session, c: Context, now: int)
    requires SessionTexts(s) && SafeString(c.operationID, MAX_FIELD_BYTES) && PromptTexts(NewPrompt(c), c.prompt)
    requires RenewChange(s, c, now).Ok?
    ensures SessionTexts(RenewChange(s, c, now).value)
  {
    hide SessionTexts, RecordOperation, EnsurePrompt, PutPrompt, AddPrompt, PromptTexts, SafeString, ByteLength, DigestValid;
    RecordTexts(s, Renew, c);
    RenewStages(s, c, now);
    var s2 := EnsurePrompt(RecordOperation(s, Renew, c).value.0, c).value;
    EnsureTexts(RecordOperation(s, Renew, c).value.0, c);
    if RenewChange(s, c, now).value != s2 {
      LeaseTexts(s2, c.prompt, RenewLease(s2.prompts[c.prompt], c, now).value);
    }
  }

  lemma ReserveTexts(s: Session, c: Context, r: Request, normal: bool, now: int)
    requires SessionTexts(s) && SafeString(c.operationID, MAX_FIELD_BYTES) && PromptTexts(NewPrompt(c), c.prompt)
    requires DigestValid(c.bodyDigest) && ReserveChange(s, c, r, normal, now).Ok?
    ensures SessionTexts(ReserveChange(s, c, r, normal, now).value.0)
  {
    ReserveStages(s, c, r, normal, now);
    RecordTexts(s, Responses, c);
    var s1 := RecordOperation(s, Responses, c).value.0;
    EnsureTexts(s1, c);
    var s2 := EnsurePrompt(s1, c).value;
    LeaseTexts(s2, c.prompt, ReservedPrompt(s2.prompts[c.prompt], c));
  }

  lemma IdentityTexts(s: Session, k: PromptKey, q: nat, id: string, alias: string)
    requires SessionTexts(s) && HasInvocation(s, k, q) && IdentifierValid(id) && AliasValid(alias, RESPONSE_PREFIX)
    requires IdentityChange(s, k, q, id, alias).Ok?
    ensures SessionTexts(IdentityChange(s, k, q, id, alias).value)
  {
    hide SessionTexts, PromptTexts, SafeString, ByteLength, DigestValid, OwnerValid, LinkTexts, UuidValid, IdentifierValid;
    var link := Link(id, k, false, false, map[]);
    var t := s.(responses := s.responses[alias := link]);
    LinkedTexts(s, t, alias, link);
    PromptsChanged(t, IdentityChange(s, k, q, id, alias).value);
  }

  lemma CompleteTexts(s: Session, k: PromptKey, q: nat, r: Summary, aliases: seq<string>, now: int)
    requires SessionTexts(s) && HasInvocation(s, k, q) && |aliases| == |r.calls| && FreshAliases(aliases)
    requires CompleteChange(s, k, q, r, aliases, now).Ok?
    ensures SessionTexts(CompleteChange(s, k, q, r, aliases, now).value)
  {
    hide PromptTexts, DigestValid, IdentifierValid, LinkTexts, ByteLength;
    CompleteStages(s, k, q, r, aliases, now);
    CallMapExact(r.calls, aliases);
    var alias := s.prompts[k].invocations[q].alias;
    var link := s.responses[alias].(completed := true, hasFunctions := |CallMap(r.calls, aliases)| != 0, callIDs := CallMap(r.calls, aliases));
    var t := s.(responses := s.responses[alias := link]);
    CompletedLinkTexts(s.responses[alias], alias, link, aliases);
    LinkedTexts(s, t, alias, link);
    PromptsChanged(t, CompletedSession(s, k, q, link));
  }

  lemma CompletedLinkTexts(before: Link, alias: string, link: Link, aliases: seq<string>)
    requires LinkTexts(alias, before) && link.remoteID == before.remoteID && FreshAliases(aliases)
    requires forall c :: c in link.callIDs ==> c in aliases
    ensures LinkTexts(alias, link)
  {
  }

  lemma CreationTexts(s: Session, t: Session)
    requires SessionTexts(s) && t == s.(remoteID := t.remoteID, createState := t.createState)
    requires t.remoteID == "" || t.remoteID == s.remoteID || UuidValid(t.remoteID)
    ensures SessionTexts(t)
  {
  }

  lemma CleanupTexts(m: Session, closing: set<PromptKey>, retiring: bool, created: bool, kind: Kind, remote: string, at: int)
    requires SessionTexts(m) && CleanupChange(m, closing, retiring, created, kind, remote, at).Ok?
    ensures SessionTexts(CleanupChange(m, closing, retiring, created, kind, remote, at).value)
  {
    hide SessionTexts, PromptTexts, CleanupChange;
    CleanupStages(m, closing, retiring, created, kind, remote, at);
    PromptsChanged(m, CleanupChange(m, closing, retiring, created, kind, remote, at).value);
  }

  lemma ProcTexts(s: System, o: Owner, e: ProcEvent)
    requires CanStep(s, o) && SessionTexts(s.b.mem.sessions[o])
    requires s.procs[o].pc.Prepared? ==> UuidValid(s.procs[o].pc.remote)
    requires ProcNext(s, o, e).Some? && ProcNext(s, o, e).value.Ok?
    ensures SessionTexts(ProcNext(s, o, e).value.value)
  {
    hide SessionTexts, CompleteChange, IdentityChange, FinishChange, InferIntentChange, RefusalChange;
    var p, m := s.procs[o], s.b.mem.sessions[o];
    var n := ProcNext(s, o, e).value.value;
    match e
    case CommitCreateIntent(_, _) => CreationTexts(m, n);
    case CommitCreateResult(_) => CreationTexts(m, n);
    case Identity(id, _, alias, _) => IdentityTexts(m, p.prompt, p.seqNo, id, alias);
    case Complete(r, aliases, _) => CompleteTexts(m, p.prompt, p.seqNo, r, aliases, s.now);
    case _ => StateTexts(s, o, e);
  }

  lemma StateTexts(s: System, o: Owner, e: ProcEvent)
    requires CanStep(s, o) && SessionTexts(s.b.mem.sessions[o]) && ProcNext(s, o, e).Some? && ProcNext(s, o, e).value.Ok?
    requires e.CommitInferIntent? || e.CommitRefusal? || e.Finish?
    ensures SessionTexts(ProcNext(s, o, e).value.value)
  {
    hide SessionTexts, PromptTexts;
    PromptsChanged(s.b.mem.sessions[o], ProcNext(s, o, e).value.value);
  }

  lemma PutTexts(l: Ledger, o: Owner, t: Session)
    requires TextsLedger(l) && SessionTexts(t)
    ensures TextsLedger(PutSession(l, o, t))
  {
    forall x, u | Record(PutSession(l, o, t), x, u) ensures SessionTexts(u) {
      if x != o { assert Record(l, x, u); }
    }
  }

  lemma EveryTexts(l: Ledger, f: Session -> Session)
    requires TextsLedger(l) && forall s: Session :: SessionTexts(s) ==> SessionTexts(f(s))
    ensures TextsLedger(ForSessions(l, f))
  {
    forall x, u | Record(ForSessions(l, f), x, u) ensures SessionTexts(u) {
      assert Record(l, x, l.sessions[x]);
    }
  }

  lemma SweptTexts(l: Ledger, now: int)
    requires TextsLedger(l)
    ensures TextsLedger(Swept(l, now))
  {
    forall s: Session | SessionTexts(s) ensures SessionTexts(ExpirePrompts(s, now)) {
      PromptsChanged(s, ExpirePrompts(s, now));
    }
    EveryTexts(l, x => ExpirePrompts(x, now));
  }

  lemma RecoveredTexts(l: Ledger)
    requires TextsLedger(l)
    ensures TextsLedger(Recovered(l))
  {
    forall s: Session | SessionTexts(s) ensures SessionTexts(RecoverPrompts(s)) {
      PromptsChanged(s, RecoverPrompts(s));
    }
    EveryTexts(l, x => RecoverPrompts(x));
  }

  lemma EnsuredTexts(l: Ledger, o: Owner)
    requires TextsLedger(l) && OwnerValid(o) && EnsureSession(l, o).Ok?
    ensures SessionTexts(EnsureSession(l, o).value)
  {
    if o in l.sessions { assert Record(l, o, l.sessions[o]); }
  }

  lemma ControlTexts(l: Ledger, path: Path, c: Context, at: int, now: int)
    requires TextsLedger(l) && ParsedContext(path, c, at) && !path.Responses? && ControlNext(l, path, c, now).Ok?
    ensures TextsLedger(ControlNext(l, path, c, now).value)
  {
    ParsedTexts(path, c, at);
    EnsuredTexts(l, c.owner);
    var s := EnsureSession(l, c.owner).value;
    match path {
      case Retire => RetireTexts(s, c);
      case Settle => SettleTexts(s, c);
      case Renew => RenewTexts(s, c, now);
    }
    PutTexts(l, c.owner, ControlChange(s, path, c, now).value);
  }

  lemma ReserveNextTexts(l: Ledger, c: Context, r: Request, normal: bool, at: int, now: int)
    requires TextsLedger(l) && ParsedContext(Responses, c, at) && ReserveNext(l, c, r, normal, now).Ok?
    ensures TextsLedger(ReserveNext(l, c, r, normal, now).value.0)
  {
    ParsedTexts(Responses, c, at);
    EnsuredTexts(l, c.owner);
    var s := EnsureSession(l, c.owner).value;
    ReserveTexts(s, c, r, normal, now);
    PutTexts(l, c.owner, ReserveChange(s, c, r, normal, now).value.0);
  }

  lemma DisconnectTexts(l: Ledger, o: Owner, k: PromptKey)
    requires TextsLedger(l)
    ensures TextsLedger(Disconnect(l, o, k))
  {
    if o in l.sessions {
      assert Record(l, o, l.sessions[o]);
      PromptsChanged(l.sessions[o], ClosePrompt(l.sessions[o], k));
      PutTexts(l, o, ClosePrompt(l.sessions[o], k));
    }
  }

  ghost predicate ProcsPrepared(s: System) {
    forall o :: o in s.procs && s.procs[o].pc.Prepared? ==> UuidValid(s.procs[o].pc.remote)
  }

  lemma WritesTexts(s: System, e: Event, l: Ledger)
    requires TextsLedger(s.b.mem) && ProcsPrepared(s) && Writes(s, e, l)
    ensures TextsLedger(l)
  {
    match e
    case Restart(_) => RecoveredTexts(s.b.mem);
    case Sweeping(_) => SweptTexts(s.b.mem, s.now);
    case Controlled(path, c, at, _) => ControlTexts(s.b.mem, path, c, at, s.now);
    case Disconnected(o, k, _) => DisconnectTexts(s.b.mem, o, k);
    case Reserving(c, r, normal, at, _) => ReserveNextTexts(s.b.mem, c, r, normal, at, s.now);
    case Pinning(_, _) => assert forall o, x :: Record(l, o, x) ==> Record(s.b.mem, o, x);
    case ProcMoves(o, step) =>
      assert Record(s.b.mem, o, s.b.mem.sessions[o]);
      ProcTexts(s, o, step);
      PutTexts(s.b.mem, o, ProcNext(s, o, step).value.value);
    case WorkerMoves(o, move) =>
      var k := s.workers[o];
      assert Record(s.b.mem, o, s.b.mem.sessions[o]);
      CleanupTexts(s.b.mem.sessions[o], k.closing, k.retiring, k.createState.Known?, k.stage.kind, k.remote, s.now);
      PutTexts(s.b.mem, o, WorkerNext(s, o, move).value.value);
  }

  // ---------------------------------------------------------------------------
  // The two checks that admission does not make
  // ---------------------------------------------------------------------------

  ghost predicate LedgerClean(l: Ledger) {
    forall o, s :: Record(l, o, s) ==> SessionClean(s)
  }

  /** The whole of the inputs that spoil a ledger, tested before the change is made. */
  predicate Soils(s: System, e: Event) {
    match e
    case Controlled(path, c, _, _) =>
      && path.Settle? && c.leaseExpires == ZERO_TIME
      && (c.owner !in s.b.mem.sessions || c.prompt !in s.b.mem.sessions[c.owner].prompts)
    case ProcMoves(_, step) => step.Complete? && exists i :: 0 <= i < |step.summary.calls| && HasSpace(step.summary.calls[i])
    case _ => false
  }

  ghost predicate LeasesReal(s: Session) {
    forall k :: k in s.prompts ==> s.prompts[k].leaseExpires != ZERO_TIME
  }

  ghost predicate CallsClean(s: Session) {
    forall a :: a in s.responses ==> LinkClean(s.responses[a])
  }

  /** A change that gives no prompt the zero time and no response a bad call is clean. */
  ghost predicate KeepsClean(s: Session, t: Session) {
    && (forall k :: k in t.prompts ==> (k in s.prompts && t.prompts[k].leaseExpires == s.prompts[k].leaseExpires) || t.prompts[k].leaseExpires != ZERO_TIME)
    && (forall a :: a in t.responses ==> (a in s.responses && t.responses[a].callIDs == s.responses[a].callIDs) || LinkClean(t.responses[a]))
  }

  lemma CleanKept(s: Session, t: Session)
    requires SessionClean(s) && KeepsClean(s, t)
    ensures SessionClean(t)
  {
    forall a | a in t.responses ensures LinkClean(t.responses[a]) {
      if a in s.responses { assert LinkClean(s.responses[a]); }
    }
  }

  lemma RecordClean(s: Session, path: Path, c: Context)
    requires RecordOperation(s, path, c).Ok?
    ensures KeepsClean(s, RecordOperation(s, path, c).value.0)
  {
  }

  lemma EnsureClean(s: Session, c: Context)
    requires EnsurePrompt(s, c).Ok? && (c.prompt in s.prompts || c.leaseExpires != ZERO_TIME)
    ensures KeepsClean(s, EnsurePrompt(s, c).value)
  {
  }

  lemma RetireClean(s: Session, c: Context)
    requires RetireChange(s, c).Ok?
    ensures KeepsClean(s, RetireChange(s, c).value)
  {
  }

  lemma SettleClean(s: Session, c: Context)
    requires SettleChange(s, c).Ok?
    ensures c.prompt in s.prompts || c.leaseExpires != ZERO_TIME ==> KeepsClean(s, SettleChange(s, c).value)
    ensures c.prompt !in s.prompts && c.leaseExpires == ZERO_TIME ==> !LeasesReal(SettleChange(s, c).value)
  {
    var s1 := RecordOperation(s, Settle, c).value.0;
    var s2 := EnsurePrompt(s1, c).value;
    assert c.prompt in SettleChange(s, c).value.prompts;
    assert SettleChange(s, c).value.prompts[c.prompt].leaseExpires == s2.prompts[c.prompt].leaseExpires;
  }

  lemma RenewClean(s: Session, c: Context, now: int)
    requires RenewChange(s, c, now).Ok? && c.leaseExpires != ZERO_TIME
    ensures KeepsClean(s, RenewChange(s, c, now).value)
  {
    RenewStages(s, c, now);
    RecordClean(s, Renew, c);
    EnsureClean(RecordOperation(s, Renew, c).value.0, c);
  }

  lemma ReserveClean(s: Session, c: Context, r: Request, normal: bool, now: int)
    requires ReserveChange(s, c, r, normal, now).Ok? && c.leaseExpires != ZERO_TIME
    ensures KeepsClean(s, ReserveChange(s, c, r, normal, now).value.0)
  {
    ReserveStages(s, c, r, normal, now);
  }

  lemma CallsKeptClean(calls: seq<string>, aliases: seq<string>)
    requires |calls| == |aliases| && CallsAdmissible(calls) && forall i, j :: 0 <= i < j < |aliases| ==> aliases[i] != aliases[j]
    ensures (forall c :: c in CallMap(calls, aliases) ==> IdentifierValid(CallMap(calls, aliases)[c]))
            <==> forall i :: 0 <= i < |calls| ==> !HasSpace(calls[i])
  {
    CallMapExact(calls, aliases);
    forall i | 0 <= i < |calls| ensures IdentifierValid(calls[i]) <==> !HasSpace(calls[i]) {
      SafeStringIsIdentifierUnlessSpace(calls[i]);
    }
    forall c | c in CallMap(calls, aliases) ensures exists i :: 0 <= i < |calls| && aliases[i] == c {
      assert c in aliases;
    }
  }

  lemma CompleteClean(s: Session, k: PromptKey, q: nat, r: Summary, aliases: seq<string>, now: int)
    requires HasInvocation(s, k, q) && |aliases| == |r.calls| && FreshAliases(aliases)
    requires CompleteChange(s, k, q, r, aliases, now).Ok?
    ensures var t := CompleteChange(s, k, q, r, aliases, now).value;
            var spaced := exists i :: 0 <= i < |r.calls| && HasSpace(r.calls[i]);
            (!spaced ==> KeepsClean(s, t)) && (spaced ==> !CallsClean(t))
  {
    CompleteStages(s, k, q, r, aliases, now);
    CallsKeptClean(r.calls, aliases);
    var alias := s.prompts[k].invocations[q].alias;
    var t := CompleteChange(s, k, q, r, aliases, now).value;
    assert alias in t.responses && t.responses[alias].callIDs == CallMap(r.calls, aliases);
    assert LinkClean(t.responses[alias]) <==> forall i :: 0 <= i < |r.calls| ==> !HasSpace(r.calls[i]);
  }

  lemma CleanupClean(m: Session, closing: set<PromptKey>, retiring: bool, created: bool, kind: Kind, remote: string, at: int)
    requires CleanupChange(m, closing, retiring, created, kind, remote, at).Ok?
    ensures KeepsClean(m, CleanupChange(m, closing, retiring, created, kind, remote, at).value)
  {
    CleanupStages(m, closing, retiring, created, kind, remote, at);
  }

  lemma ProcClean(s: System, o: Owner, e: ProcEvent)
    requires CanStep(s, o) && ProcNext(s, o, e).Some? && ProcNext(s, o, e).value.Ok?
    ensures !Soils(s, ProcMoves(o, e)) ==> KeepsClean(s.b.mem.sessions[o], ProcNext(s, o, e).value.value)
    ensures Soils(s, ProcMoves(o, e)) ==> !CallsClean(ProcNext(s, o, e).value.value)
  {
    hide KeepsClean, CallsClean, CompleteChange, IdentityChange, HasSpace;
    var p, m := s.procs[o], s.b.mem.sessions[o];
    match e
    case Complete(r, aliases, _) => CompleteClean(m, p.prompt, p.seqNo, r, aliases, s.now);
    case _ => OtherProcClean(s, o, e);
  }

  lemma CreateClean(s: Session, k: PromptKey, remote: string, cancelled: bool, now: int, created: bool)
    requires k in s.prompts
    ensures CreateIntentChange(s, k, remote, cancelled, now).Ok? ==> KeepsClean(s, CreateIntentChange(s, k, remote, cancelled, now).value)
    ensures KeepsClean(s, CreateResultChange(s, created))
  {
  }

  lemma StateClean(s: Session, k: PromptKey, q: nat, cancelled: bool, now: int, outcome: Outcome)
    requires HasInvocation(s, k, q)
    ensures InferIntentChange(s, k, q, cancelled, now).Ok? ==> KeepsClean(s, InferIntentChange(s, k, q, cancelled, now).value)
    ensures KeepsClean(s, RefusalChange(s, k, q)) && KeepsClean(s, FinishChange(s, k, q, outcome))
  {
    hide FinalState, LinkClean;
  }

  lemma IdentityClean(s: Session, k: PromptKey, q: nat, id: string, alias: string)
    requires HasInvocation(s, k, q) && IdentityChange(s, k, q, id, alias).Ok?
    ensures KeepsClean(s, IdentityChange(s, k, q, id, alias).value)
  {
    hide IdentifierValid;
  }

  lemma OtherProcClean(s: System, o: Owner, e: ProcEvent)
    requires CanStep(s, o) && ProcNext(s, o, e).Some? && ProcNext(s, o, e).value.Ok? && !e.Complete?
    ensures KeepsClean(s.b.mem.sessions[o], ProcNext(s, o, e).value.value)
  {
    hide KeepsClean, CreateIntentChange, CreateResultChange, InferIntentChange, RefusalChange, FinishChange, IdentityChange, CompleteChange, FreshAliases, AliasValid, IdentifierValid;
    var p, m := s.procs[o], s.b.mem.sessions[o];
    match e
    case CommitCreateIntent(late, _) => CreateClean(m, p.prompt, p.pc.remote, RequestCancelled(s.b, o) || late, s.now, false);
    case CommitCreateResult(_) => CreateClean(m, p.prompt, "", false, s.now, p.pc.created);
    case Identity(id, _, alias, _) => IdentityClean(m, p.prompt, p.seqNo, id, alias);
    case CommitInferIntent(_) => StateClean(m, p.prompt, p.seqNo, RequestCancelled(s.b, o), s.now, Failed);
    case CommitRefusal(_) => StateClean(m, p.prompt, p.seqNo, false, s.now, Failed);
    case Finish(_) => StateClean(m, p.prompt, p.seqNo, false, s.now, p.pc.outcome);
  }

  lemma PutClean(l: Ledger, o: Owner, t: Session)
    ensures LedgerClean(l) && KeepsClean(Before(l, o), t) ==> LedgerClean(PutSession(l, o, t))
    ensures !CallsClean(t) || !LeasesReal(t) ==> !LedgerClean(PutSession(l, o, t))
  {
    var m := PutSession(l, o, t);
    if LedgerClean(l) && KeepsClean(Before(l, o), t) {
      forall x, u | Record(m, x, u) ensures SessionClean(u) {
        if x != o { assert Record(l, x, u); } else {
          if o in l.sessions { assert Record(l, o, l.sessions[o]); }
          CleanKept(Before(l, o), t);
        }
      }
    }
    assert Record(m, o, t);
  }

  lemma EveryClean(l: Ledger, f: Session -> Session)
    requires LedgerClean(l) && forall s: Session {:trigger f(s)} :: KeepsClean(s, f(s))
    ensures LedgerClean(ForSessions(l, f))
  {
    forall x, u | Record(ForSessions(l, f), x, u) ensures SessionClean(u) {
      assert Record(l, x, l.sessions[x]);
      CleanKept(l.sessions[x], f(l.sessions[x]));
    }
  }

  lemma SweptClean(l: Ledger, now: int)
    requires LedgerClean(l)
    ensures LedgerClean(Swept(l, now))
  {
    EveryClean(l, x => ExpirePrompts(x, now));
  }

  lemma RecoveredClean(l: Ledger)
    requires LedgerClean(l)
    ensures LedgerClean(Recovered(l))
  {
    EveryClean(l, x => RecoverPrompts(x));
  }

  lemma ControlClean(s: System, path: Path, c: Context, at: int, io: Io, l: Ledger)
    requires 0 < at && ParsedContext(path, c, at) && !path.Responses? && ControlNext(s.b.mem, path, c, s.now) == Ok(l)
    ensures Soils(s, Controlled(path, c, at, io)) ==> !LedgerClean(l)
    ensures !Soils(s, Controlled(path, c, at, io)) && LedgerClean(s.b.mem) ==> LedgerClean(l)
  {
    var m := EnsureSession(s.b.mem, c.owner).value;
    match path {
      case Retire => RetireClean(m, c);
      case Settle => SettleClean(m, c);
      case Renew => RenewClean(m, c, s.now);
    }
    PutClean(s.b.mem, c.owner, ControlChange(m, path, c, s.now).value);
  }

  lemma ReserveNextClean(l: Ledger, c: Context, r: Request, normal: bool, at: int, now: int)
    requires LedgerClean(l) && 0 < at && ParsedContext(Responses, c, at) && ReserveNext(l, c, r, normal, now).Ok?
    ensures LedgerClean(ReserveNext(l, c, r, normal, now).value.0)
  {
    var m := EnsureSession(l, c.owner).value;
    ReserveClean(m, c, r, normal, now);
    PutClean(l, c.owner, ReserveChange(m, c, r, normal, now).value.0);
  }

  lemma DisconnectClean(l: Ledger, o: Owner, k: PromptKey)
    requires LedgerClean(l)
    ensures LedgerClean(Disconnect(l, o, k))
  {
    if o in l.sessions { PutClean(l, o, ClosePrompt(l.sessions[o], k)); }
  }

  /** A written ledger is clean unless it was not before, or its event soils it. */
  lemma WritesClean(s: System, e: Event, l: Ledger)
    requires Writes(s, e, l)
    ensures Soils(s, e) ==> !LedgerClean(l)
    ensures !Soils(s, e) && LedgerClean(s.b.mem) ==> LedgerClean(l)
  {
    match e
    case Controlled(path, c, at, io) => ControlClean(s, path, c, at, io, l);
    case ProcMoves(o, step) =>
      ProcClean(s, o, step);
      PutClean(s.b.mem, o, ProcNext(s, o, step).value.value);
    case _ => if LedgerClean(s.b.mem) { OthersClean(s, e, l); }
  }

  lemma OthersClean(s: System, e: Event, l: Ledger)
    requires Writes(s, e, l) && LedgerClean(s.b.mem) && !e.Controlled? && !e.ProcMoves?
    ensures LedgerClean(l)
  {
    match e
    case Restart(_) => RecoveredClean(s.b.mem);
    case Sweeping(_) => SweptClean(s.b.mem, s.now);
    case Disconnected(o, k, _) => DisconnectClean(s.b.mem, o, k);
    case Reserving(c, r, normal, at, _) => ReserveNextClean(s.b.mem, c, r, normal, at, s.now);
    case Pinning(_, _) => assert forall o, x :: Record(l, o, x) ==> Record(s.b.mem, o, x);
    case WorkerMoves(o, move) =>
      var k := s.workers[o];
      CleanupClean(s.b.mem.sessions[o], k.closing, k.retiring, k.createState.Known?, k.stage.kind, k.remote, s.now);
      PutClean(s.b.mem, o, WorkerNext(s, o, move).value.value);
  }

  // ---------------------------------------------------------------------------
  // Every event
  // ---------------------------------------------------------------------------

  ghost predicate ReopenInv(s: System, configDigest: string) {
    && TextsLedger(s.b.mem) && TextsLedger(s.b.disk) && ProcsPrepared(s)
    && s.b.mem.configDigest == configDigest && s.b.disk.configDigest == configDigest
  }

  lemma WritesConfig(s: System, e: Event, l: Ledger)
    requires Writes(s, e, l)
    ensures l.configDigest == s.b.mem.configDigest
  {
  }

  lemma ProcPrepared(size: Ledger -> nat, s: System, x: Owner, e: ProcEvent, o: Owner)
    requires CanStep(s, x) && o in ProcStep(size, s, x, e).procs && ProcStep(size, s, x, e).procs[o].pc.Prepared?
    ensures (o in s.procs && s.procs[o].pc == ProcStep(size, s, x, e).procs[o].pc) || UuidValid(ProcStep(size, s, x, e).procs[o].pc.remote)
  {
    hide FinalState, PutInvocation, FinishChange;
    if x != o { ProcStepOthers(size, s, x, e, o); }
  }

  lemma PreparedKept(size: Ledger -> nat, s: System, e: Event)
    requires ProcsPrepared(s)
    ensures ProcsPrepared(Apply(size, s, e))
  {
    hide ProcStep, ReserveNext, RestartStep, CloseOwnerPrompt, LedgerValid, SessionAccepted, WorkerStep, ParsedContext;
    var t := Apply(size, s, e);
    forall o | o in t.procs && t.procs[o].pc.Prepared? ensures UuidValid(t.procs[o].pc.remote) {
      match e
      case ProcMoves(x, step) => if CanStep(s, x) { ProcPrepared(size, s, x, step, o); }
      case WorkerMoves(x, move) => if s.up && x in s.workers && x in s.b.mem.sessions { WorkerStepProcs(size, s, x, move); }
      case Reserving(c, r, normal, _, io) => ReserveShape(size, s, c, r, normal, io);
      case _ => QuietProcs(size, s, e);
    }
  }

  lemma ReopenKept(size: Ledger -> nat, s: System, e: Event, configDigest: string)
    requires SystemInv(s) && ReopenInv(s, configDigest)
    ensures ReopenInv(Apply(size, s, e), configDigest)
  {
    hide Apply, OwnersInv, OwnerInv, ProcStep, SideInv, ReserveNext;
    var t := Apply(size, s, e);
    ApplyKeeps(size, s, e);
    DiskWritten(size, s, e);
    PreparedKept(size, s, e);
    if t.b.disk != s.b.disk {
      WritesTexts(s, e, t.b.disk);
      WritesConfig(s, e, t.b.disk);
    }
  }

  lemma {:induction false} ReopenRun(size: Ledger -> nat, s: System, events: seq<Event>, configDigest: string)
    requires RunInv(s) && ReopenInv(s, configDigest)
    ensures ReopenInv(Run(size, s, events), configDigest)
  {
    if events != [] {
      var last := |events| - 1;
      ReopenRun(size, s, events[..last], configDigest);
      RunKeeps(size, s, events[..last]);
      ReopenKept(size, Run(size, s, events[..last]), events[last], configDigest);
    }
  }

  /** In any run, the restart check of the ledger on disk comes down to the two unchecked inputs. */
  lemma RestartCheck(s: System, configDigest: string)
    requires SystemInv(s) && ReopenInv(s, configDigest)
    ensures LedgerValid(s.b.disk, configDigest) <==> LedgerClean(s.b.disk)
  {
    var l := s.b.disk;
    forall o | o in l.sessions ensures SessionValid(l.sessions[o], o) && SessionTexts(l.sessions[o]) {
      assert Record(l, o, l.sessions[o]);
      RecordNow(s, o, l.sessions[o]);
    }
    if LedgerValid(l, configDigest) {
      forall o, m | Record(l, o, m) ensures SessionClean(m) {
        assert SessionAccepted(l.sessions[o], o);
      }
    }
    if LedgerClean(l) {
      forall o | o in l.sessions ensures SessionAccepted(l.sessions[o], o) {
        assert Record(l, o, l.sessions[o]);
      }
    }
  }

  lemma BadLinkStays(m: Session, n: Session, o: Owner)
    requires SessionValid(m, o) && SessionAdvances(m, n) && !CallsClean(m)
    ensures !CallsClean(n)
  {
    var a :| a in m.responses && !LinkClean(m.responses[a]);
    var q :| Produced(m, m.responses[a].prompt, q, a);
    var k := m.responses[a].prompt;
    assert PromptValid(m.prompts[k], k, m);
    assert InvocationValid(m.prompts[k].invocations[q], q, k, m.prompts[k].settled, m);
    assert LinkAdvances(m.responses[a], n.responses[a]);
  }

  lemma BadLeaseStays(s: System, e: Event, o: Owner, m: Session, n: Session)
    requires s.now > 0 && SessionAdvances(m, n) && LeasesAuthorized(s, e, o, m, n) && !LeasesReal(m)
    ensures !LeasesReal(n)
  {
    var k :| k in m.prompts && m.prompts[k].leaseExpires == ZERO_TIME;
    assert PromptAdvances(m.prompts[k], n.prompts[k]);
  }

  /** A ledger that fails the restart check is never put right by the broker itself. */
  lemma UncleanStays(size: Ledger -> nat, s: System, e: Event)
    requires RunInv(s) && !LedgerClean(s.b.disk)
    ensures !LedgerClean(Apply(size, s, e).b.disk)
  {
    hide Apply, LedgerInv, RestartStep, LedgerValid, OwnerInv;
    var t := Apply(size, s, e);
    ApplyKeeps(size, s, e);
    StepForward(s.b, t.b);
    AuthorityKept(size, s, e);
    var o, m :| Record(s.b.disk, o, m) && !SessionClean(m);
    DiskAdvances(s, t, o);
    var n := t.b.disk.sessions[o];
    assert Record(t.b.disk, o, n);
    RecordNow(s, o, m);
    if !CallsClean(m) { BadLinkStays(m, n, o); } else { BadLeaseStays(s, e, o, m, n); }
  }

  ghost predicate Soiled(size: Ledger -> nat, s: System, e: Event) {
    Soils(s, e) && Apply(size, s, e).b.disk != s.b.disk
  }

  lemma CleanStep(size: Ledger -> nat, s: System, e: Event)
    requires RunInv(s)
    ensures LedgerClean(Apply(size, s, e).b.disk) <==> LedgerClean(s.b.disk) && !Soiled(size, s, e)
  {
    hide Apply, OwnersInv, ProcStep, OwnerInv, ReserveChange, ReserveNext, RestartStep, ParsedContext;
    DiskWritten(size, s, e);
    if !LedgerClean(s.b.disk) {
      UncleanStays(size, s, e);
    } else if Apply(size, s, e).b.disk != s.b.disk {
      WritesClean(s, e, Apply(size, s, e).b.disk);
    }
  }

  ghost predicate SoiledAt(size: Ledger -> nat, s: System, events: seq<Event>, n: nat)
    requires n < |events|
  {
    Soiled(size, Run(size, s, events[..n]), events[n])
  }

  ghost predicate NeverSoiled(size: Ledger -> nat, s: System, events: seq<Event>) {
    forall n :: 0 <= n < |events| ==> !SoiledAt(size, s, events, n)
  }

  lemma NeverSoiledLast(size: Ledger -> nat, s: System, events: seq<Event>, last: nat)
    requires |events| == last + 1
    ensures NeverSoiled(size, s, events) <==> NeverSoiled(size, s, events[..last]) && !Soiled(size, Run(size, s, events[..last]), events[last])
  {
    hide Run, Soils, Apply;
    forall n: nat | n < last ensures SoiledAt(size, s, events[..last], n) == SoiledAt(size, s, events, n) {
      PrefixPrefix(events, last, n);
    }
    assert SoiledAt(size, s, events, last) == Soiled(size, Run(size, s, events[..last]), events[last]);
  }

  lemma {:induction false} CleanRun(size: Ledger -> nat, s: System, events: seq<Event>)
    requires RunInv(s) && LedgerClean(s.b.disk)
    ensures LedgerClean(Run(size, s, events).b.disk) <==> NeverSoiled(size, s, events)
  {
    hide Soiled, LedgerClean, RunInv, Apply;
    if events != [] {
      var last := |events| - 1;
      CleanRun(size, s, events[..last]);
      RunKeeps(size, s, events[..last]);
      CleanStep(size, Run(size, s, events[..last]), events[last]);
      NeverSoiledLast(size, s, events, last);
    }
  }

  /**
   After any run from an empty store, the broker can reopen the ledger it left exactly when no
   event of the run wrote one of the two inputs that admission does not check.
   */
  lemma ReopenExactly(size: Ledger -> nat, configDigest: string, now: int, events: seq<Event>)
    requires now > 0
    ensures var s := Initial(configDigest, now);
            LedgerValid(Run(size, s, events).b.disk, configDigest) <==> NeverSoiled(size, s, events)
  {
    hide Apply, ProcStep, ReserveStep, SessionValid, ReserveNext, WorkerStep, SessionTexts;
    var s := Initial(configDigest, now);
    Reachable(size, configDigest, now, []);
    assert Run(size, s, []) == s;
    RunKeeps(size, s, events);
    ReopenRun(size, s, events, configDigest);
    RestartCheck(Run(size, s, events), configDigest);
    CleanRun(size, s, events);
  }

  /** A stopped broker comes up again exactly when its ledger passes and fits. */
  lemma RestartExactly(size: Ledger -> nat, s: System)
    requires !s.up
    ensures RestartStep(size, s, Saved).up
            <==> LedgerValid(s.b.disk, s.b.disk.configDigest) && size(Recovered(s.b.disk)) <= MAX_LEDGER_BYTES
  {
  }

  // ---------------------------------------------------------------------------
  // A run that ends with a ledger its broker cannot reopen
  // ---------------------------------------------------------------------------

  function Zeros(n: nat): (s: string)
    ensures |s| == n && forall i :: 0 <= i < n ==> s[i] == '0'
  {
    if n == 0 then "" else Zeros(n - 1) + "0"
  }

  const SOME_DIGEST := "sha256:" + Zeros(64)

  const SOME_OWNER := Owner("r", "b", 1, "p", 1, "s", 1, SOME_DIGEST, 1)

  const ZERO_SETTLEMENT := Context(SOME_OWNER, PromptKey("t", 1, "q", SOME_DIGEST), 1, ZERO_TIME, "x", 0, SOME_DIGEST)

  const ZERO_SETTLED := ControlNext(EmptyLedger(SOME_DIGEST), Settle, ZERO_SETTLEMENT, 1)

  lemma ZeroSettlementParsed()
    ensures ParsedContext(Settle, ZERO_SETTLEMENT, 1)
  {
  }

  lemma ZeroSettlementWritten(size: Ledger -> nat)
    requires ZERO_SETTLED.Ok? && size(ZERO_SETTLED.value) <= 1000
    ensures Apply(size, Initial(SOME_DIGEST, 1), Controlled(Settle, ZERO_SETTLEMENT, 1, Saved)).b.disk == ZERO_SETTLED.value
    ensures ZERO_SETTLED.value != EmptyLedger(SOME_DIGEST)
  {
    hide ProcStep, OwnerValid, RestartStep;
    ZeroSettlementParsed();
    assert LiveOwners(ZERO_SETTLED.value) == {SOME_OWNER};
  }

  /** The first request a broker ever gets can be a settlement that locks it out. */
  lemma ZeroSettlementLocksOut(size: Ledger -> nat)
    requires ZERO_SETTLED.Ok? ==> size(ZERO_SETTLED.value) <= 1000
    ensures var s := Run(size, Initial(SOME_DIGEST, 1), [Controlled(Settle, ZERO_SETTLEMENT, 1, Saved)]);
            !LedgerValid(s.b.disk, SOME_DIGEST)
  {
    var e := Controlled(Settle, ZERO_SETTLEMENT, 1, Saved);
    var s := Initial(SOME_DIGEST, 1);
    ZeroSettlementWritten(size);
    assert [e][..0] == [];
    assert Run(size, s, []) == s;
    assert SoiledAt(size, s, [e], 0);
    ReopenExactly(size, SOME_DIGEST, 1, [e]);
  }

  // ---------------------------------------------------------------------------
  // A completion that admission accepts and a restart does not
  // ---------------------------------------------------------------------------

  const SOME_UUID := Zeros(8) + "-" + Zeros(4) + "-" + Zeros(4) + "-" + Zeros(4) + "-" + Zeros(12)

  const SOME_ALIAS := RESPONSE_PREFIX + SOME_UUID

  const SOME_CALL := CALL_PREFIX + SOME_UUID

  const SOME_PROMPT := PromptKey("t", 1, "q", SOME_DIGEST)

  const SOME_CONTEXT := Context(SOME_OWNER, SOME_PROMPT, 1, 100, "x", 1, SOME_DIGEST)

  const SOME_INVOCATION := Invocation(1, "x", SOME_DIGEST, Accepted, "r", SOME_ALIAS)

  // An owner whose first inference was accepted and has not completed.
  const STREAMING := Session(
    SOME_OWNER, SOME_UUID, Known, false, false, None, Some(SOME_PROMPT),
    map[SOME_PROMPT := Prompt(SOME_CONTEXT, 1, 100, false, false, None, 1, "", map[1 := SOME_INVOCATION])],
    map[SOME_ALIAS := Link("r", SOME_PROMPT, false, false, map[])],
    map["x" := OpDigest(Responses, SOME_CONTEXT)])

  const SPACED := Summary("r", "", ["a b"])

  lemma SomeTexts()
    ensures DigestValid(SOME_DIGEST) && OwnerValid(SOME_OWNER) && UuidValid(SOME_UUID)
    ensures AliasValid(SOME_ALIAS, RESPONSE_PREFIX) && AliasValid(SOME_CALL, CALL_PREFIX)
    ensures SafeString("t", MAX_FIELD_BYTES) && SafeString("q", MAX_FIELD_BYTES) && SafeString("x", MAX_FIELD_BYTES)
    ensures IdentifierValid("r") && SOME_UUID != "" && SOME_ALIAS != ""
  {
    ZeroSettlementParsed();
    assert SOME_ALIAS[3..] == SOME_UUID && SOME_CALL[3..] == SOME_UUID;
  }

  lemma StreamingPrompt()
    ensures PromptValid(STREAMING.prompts[SOME_PROMPT], SOME_PROMPT, STREAMING) && LinksExact(STREAMING)
  {
    hide UuidValid, DigestValid, SafeString, IdentifierValid, AliasValid, OwnerValid, ByteLength;
    assert Produced(STREAMING, SOME_PROMPT, 1, SOME_ALIAS);
    assert STREAMING.operations.Keys == {"x"};
    SomeTexts();
  }

  lemma StreamingStructure()
    ensures SessionValid(STREAMING, SOME_OWNER)
  {
    hide UuidValid, DigestValid, SafeString, IdentifierValid, AliasValid, OwnerValid, ByteLength, PromptValid, LinksExact;
    assert STREAMING.prompts.Keys == {SOME_PROMPT} && STREAMING.operations.Keys == {"x"};
    SomeTexts();
    StreamingPrompt();
  }

  lemma SpacedAdmissible()
    ensures CallsAdmissible(SPACED.calls) && HasSpace("a b") && !IdentifierValid("a b")
  {
    assert "a b"[1] == ' ' && IsSpace("a b"[1]);
    assert ByteLength("a b") == 3 by {
      assert "a b"[1..] == " b" && " b"[1..] == "b";
    }
  }

  /**
   An owner's record passes the restart check; the provider answers its request with a call named
   "a b"; the completion is admitted; and the record fails the restart check.
   */
  lemma SpacedCallLocksOut()
    ensures SessionAccepted(STREAMING, SOME_OWNER)
    ensures var next := CompleteChange(STREAMING, SOME_PROMPT, 1, SPACED, [SOME_CALL], 1);
            next.Ok? && !SessionAccepted(next.value, SOME_OWNER)
  {
    hide SessionValid, UuidValid, DigestValid, AliasValid, ByteLength, IdentifierValid;
    SomeTexts();
    StreamingStructure();
    SpacedAdmissible();
    var calls := CallMap(SPACED.calls, [SOME_CALL]);
    CallMapExact(SPACED.calls, [SOME_CALL]);
    assert [SOME_CALL][0] in calls && calls[SOME_CALL] == "a b";
    var next := CompleteChange(STREAMING, SOME_PROMPT, 1, SPACED, [SOME_CALL], 1);
    assert next.value.responses[SOME_ALIAS].callIDs == calls;
    assert !LinkClean(next.value.responses[SOME_ALIAS]);
  }
}
