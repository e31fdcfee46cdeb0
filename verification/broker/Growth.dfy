/** What each reserved change can add to the length of the ledger. */
module BrokerGrowth {
  import opened Wrappers
  import opened Text
  import opened Sums
  import opened BrokerLedger
  import opened BrokerChanges
  import opened BrokerValidity
  import opened BrokerAcceptance
  import opened BrokerSystem
  import opened BrokerInvariant
  import opened BrokerRequests
  import opened BrokerCleanup
  import opened BrokerSafety
  import opened BrokerMoves
  import opened BrokerEvents
  import opened BrokerTheorems
  import opened BrokerWrites
  import opened BrokerReopening
  import opened BrokerBytes

  // One settlement or retirement key of 512 bytes, escaped, with its digest.
  const KEY_BYTES: nat := 6 * 512 + 2 + 1 + DIGEST_BYTES + 1

  // One accepted response: its identifier of 4096 bytes, escaped, twice, its alias twice, and the rest of its link.
  const ACCEPT_BYTES: nat :=
    2 * (6 * 4096 + 2) + 14 + (17 + 41) + (41 + 1) + 12 + 13 + DIGEST_BYTES + 13 + 5 + 16 + 5 + 1 + 1

  // ---------------------------------------------------------------------------
  // One prompt
  // ---------------------------------------------------------------------------

  lemma InvocationPut(e: Encoding, p: Prompt, q: nat, i: Invocation)
    requires q in p.invocations
    ensures PromptWeight(e, WithInvocation(p, q, i)) + InvocationWeight(q, p.invocations[q])
            == PromptWeight(e, p) + InvocationWeight(q, i)
  {
    TotalPut(p.invocations, q, i, InvocationWeight);
    assert |p.invocations[q := i]| == |p.invocations[q := i].Keys| == |p.invocations.Keys|
    by { assert p.invocations[q := i].Keys == p.invocations.Keys; }
  }

  /** No change but a completion makes the name of a state longer than what was set aside for it. */
  lemma StateWeight(a: InvocationState, b: InvocationState)
    requires StateAdvances(a, b) && (b.Completed? ==> a.Completed?)
    ensures StateBytes(b) + StateOwed(b) <= StateBytes(a) + StateOwed(a)
  {
  }

  lemma StatePut(e: Encoding, p: Prompt, q: nat, state: InvocationState)
    requires q in p.invocations && StateAdvances(p.invocations[q].state, state)
    requires state.Completed? ==> p.invocations[q].state.Completed?
    ensures PromptWeight(e, WithInvocation(p, q, p.invocations[q].(state := state))) <= PromptWeight(e, p)
  {
    InvocationPut(e, p, q, p.invocations[q].(state := state));
    StateWeight(p.invocations[q].state, state);
  }

  lemma ClosedWeight(e: Encoding, p: Prompt)
    ensures PromptWeight(e, p.(closing := true)) <= PromptWeight(e, p)
  {
  }

  lemma SettledWeight(e: Encoding, p: Prompt, proof: Proof)
    requires !p.settled && p.proof.None?
    requires forall q :: q in p.invocations ==> !AmbiguousInvocation(p.invocations[q]) && (p.invocations[q].state.Intent? ==> p.invocations[q].responseID == "")
    ensures PromptWeight(e, SettlePrompt(p, proof)) <= PromptWeight(e, p)
  {
    var after := SettleInvocations(p.invocations);
    assert after.Keys == p.invocations.Keys;
    assert |after| == |after.Keys| == |p.invocations|;
    forall q | q in p.invocations ensures InvocationWeight(q, after[q]) <= InvocationWeight(q, p.invocations[q]) {
      assert !AmbiguousInvocation(p.invocations[q]);
    }
    TotalCompare(after, p.invocations, InvocationWeight, InvocationWeight);
  }

  // ---------------------------------------------------------------------------
  // One record
  // ---------------------------------------------------------------------------

  lemma PromptPut(e: Encoding, s: Session, k: PromptKey, p: Prompt)
    requires k in s.prompts
    ensures SessionWeight(e, PutPrompt(s, k, p)) + PromptWeight(e, s.prompts[k]) == SessionWeight(e, s) + PromptWeight(e, p)
  {
    TotalPut(s.prompts, k, p, PromptWeightOf(e));
    assert s.prompts[k := p].Keys == s.prompts.Keys;
    assert |s.prompts[k := p]| == |s.prompts[k := p].Keys| == |s.prompts.Keys|;
  }

  lemma PromptsPut(e: Encoding, s: Session, t: Session)
    requires t == s.(prompts := t.prompts) && t.prompts.Keys == s.prompts.Keys
    requires forall k :: k in s.prompts ==> PromptWeight(e, t.prompts[k]) <= PromptWeight(e, s.prompts[k])
    ensures SessionWeight(e, t) <= SessionWeight(e, s)
  {
    TotalCompare(t.prompts, s.prompts, PromptWeightOf(e), PromptWeightOf(e));
    assert |t.prompts| == |t.prompts.Keys| == |s.prompts|;
  }

  lemma ClosingWeight(e: Encoding, s: Session, t: Session)
    requires t == s.(prompts := t.prompts) && t.prompts.Keys == s.prompts.Keys
    requires forall k :: k in s.prompts ==> Closes(s.prompts[k], t.prompts[k])
    ensures SessionWeight(e, t) <= SessionWeight(e, s)
  {
    forall k | k in s.prompts ensures PromptWeight(e, t.prompts[k]) <= PromptWeight(e, s.prompts[k]) {
      ClosedWeight(e, s.prompts[k]);
    }
    PromptsPut(e, s, t);
  }

  lemma OperationWeight(e: Encoding, s: Session, path: Path, c: Context)
    requires RecordOperation(s, path, c).Ok? && SafeString(c.operationID, MAX_FIELD_BYTES)
    ensures SessionWeight(e, RecordOperation(s, path, c).value.0)
            <= SessionWeight(e, s) + Field(c.operationID !in s.operations, KEY_BYTES)
  {
    EscapedBound(c.operationID);
    TotalPut(s.operations, c.operationID, OpDigest(path, c), OperationBytes);
  }

  lemma RetireWeight(e: Encoding, s: Session, c: Context)
    requires RetireChange(s, c).Ok? && SafeString(c.operationID, MAX_FIELD_BYTES)
    ensures SessionWeight(e, RetireChange(s, c).value) <= SessionWeight(e, s) + Field(c.operationID !in s.operations, KEY_BYTES)
  {
    hide RecordOperation;
    var s1 := RecordOperation(s, Retire, c).value.0;
    OperationWeight(e, s, Retire, c);
    var t := s1.(prompts := CloseAll(s1.prompts));
    ClosingWeight(e, s1, t);
    assert SessionWeight(e, t.(retiring := true)) <= SessionWeight(e, t);
  }

  lemma SettleWeight(e: Encoding, s: Session, c: Context)
    requires SettleChange(s, c).Ok? && SafeString(c.operationID, MAX_FIELD_BYTES) && c.prompt in s.prompts
    ensures SessionWeight(e, SettleChange(s, c).value) <= SessionWeight(e, s) + Field(c.operationID !in s.operations, KEY_BYTES)
  {
    var s1 := RecordOperation(s, Settle, c).value.0;
    OperationWeight(e, s, Settle, c);
    PromptPut(e, s1, c.prompt, s1.prompts[c.prompt].(closing := true));
    ClosedWeight(e, s1.prompts[c.prompt]);
  }

  lemma ClosePromptWeight(e: Encoding, s: Session, k: PromptKey)
    ensures SessionWeight(e, ClosePrompt(s, k)) <= SessionWeight(e, s)
  {
    if k in s.prompts {
      PromptPut(e, s, k, s.prompts[k].(closing := true));
      ClosedWeight(e, s.prompts[k]);
    }
  }

  lemma ExpireWeight(e: Encoding, s: Session, now: int)
    ensures SessionWeight(e, ExpirePrompts(s, now)) <= SessionWeight(e, s)
  {
    ClosingWeight(e, s, ExpirePrompts(s, now));
  }

  lemma RecoverWeight(e: Encoding, s: Session)
    ensures SessionWeight(e, RecoverPrompts(s)) <= SessionWeight(e, s)
  {
    ClosingWeight(e, s, RecoverPrompts(s));
  }

  lemma CreationWeight(e: Encoding, s: Session, remote: string, state: CreateState)
    requires !s.retired
    requires || (s.createState.NotCreated? && s.remoteID == "" && state.CreateIntent? && UuidValid(remote))
             || (s.createState.CreateIntent? && state.Known? && remote == s.remoteID)
             || (s.createState.CreateIntent? && state.NotCreated? && remote == "" && UuidValid(s.remoteID))
    ensures SessionWeight(e, s.(remoteID := remote, createState := state)) <= SessionWeight(e, s)
  {
    if UuidValid(remote) { UuidBytes(remote); }
    if UuidValid(s.remoteID) { UuidBytes(s.remoteID); }
  }

  lemma PutStateWeight(e: Encoding, s: Session, k: PromptKey, q: nat, state: InvocationState)
    requires HasInvocation(s, k, q) && StateAdvances(s.prompts[k].invocations[q].state, state)
    requires state.Completed? ==> s.prompts[k].invocations[q].state.Completed?
    ensures SessionWeight(e, PutState(s, k, q, state)) <= SessionWeight(e, s)
  {
    StatePut(e, s.prompts[k], q, state);
    PromptPut(e, s, k, WithInvocation(s.prompts[k], q, s.prompts[k].invocations[q].(state := state)));
  }

  lemma FinishWeight(e: Encoding, s: Session, k: PromptKey, q: nat, outcome: Outcome)
    requires HasInvocation(s, k, q)
    ensures SessionWeight(e, FinishChange(s, k, q, outcome)) <= SessionWeight(e, s)
  {
    if !outcome.Success? {
      var state := FinalState(s.prompts[k].invocations[q].state, outcome);
      PutStateWeight(e, s, k, q, state);
      ClosePromptWeight(e, PutState(s, k, q, state), k);
    }
  }

  lemma LinkWeight(alias: string, id: string, k: PromptKey)
    requires AliasValid(alias, RESPONSE_PREFIX) && ByteLength(id) <= MAX_IDENTIFIER_BYTES
    ensures LinkBytes(alias, Link(id, k, false, false, map[])) == 41 + 1 + 12 + Quoted(id) + 13 + DIGEST_BYTES + 13 + 5 + 16 + 5 + 1
    ensures Quoted(id) <= 6 * 4096 + 2
  {
    AliasBytes(alias);
    EscapedBound(id);
  }

  lemma AcceptedPromptWeight(e: Encoding, p: Prompt, q: nat, id: string, alias: string)
    requires q in p.invocations && p.invocations[q].state.Intent? && p.invocations[q].responseID == "" && p.invocations[q].alias == ""
    requires Quoted(alias) == 41
    ensures PromptWeight(e, AcceptedPrompt(p, q, id, alias)) <= PromptWeight(e, p) + 14 + Quoted(id) + 17 + 41
  {
    InvocationPut(e, p, q, p.invocations[q].(responseID := id, alias := alias, state := Accepted));
  }

  lemma AddedLinkWeight(e: Encoding, s: Session, alias: string, link: Link)
    requires alias !in s.responses
    ensures SessionWeight(e, Linked(s, alias, link)) <= SessionWeight(e, s) + LinkBytes(alias, link) + 1
  {
    TotalPut(s.responses, alias, link, LinkBytes);
  }

  lemma IdentityWeight(e: Encoding, s: Session, k: PromptKey, q: nat, id: string, alias: string)
    requires HasInvocation(s, k, q) && s.prompts[k].invocations[q].state.Intent?
    requires s.prompts[k].invocations[q].responseID == "" && s.prompts[k].invocations[q].alias == ""
    requires AliasValid(alias, RESPONSE_PREFIX) && ByteLength(id) <= MAX_IDENTIFIER_BYTES && alias !in s.responses
    ensures SessionWeight(e, AcceptedSession(s, k, q, id, alias)) <= SessionWeight(e, s) + ACCEPT_BYTES
  {
    var link := Link(id, k, false, false, map[]);
    var u := PutPrompt(s, k, AcceptedPrompt(s.prompts[k], q, id, alias));
    AliasBytes(alias);
    LinkWeight(alias, id, k);
    AcceptedPromptWeight(e, s.prompts[k], q, id, alias);
    PromptPut(e, s, k, AcceptedPrompt(s.prompts[k], q, id, alias));
    AddedLinkWeight(e, u, alias, link);
    assert AcceptedSession(s, k, q, id, alias) == Linked(u, alias, link);
  }

  lemma UnaskedIntent(s: Session, o: Owner, k: PromptKey)
    requires SessionValid(s, o) && k in s.prompts
    ensures !s.prompts[k].settled ==> s.prompts[k].proof.None?
    ensures forall q :: q in s.prompts[k].invocations && s.prompts[k].invocations[q].state.Intent?
                        ==> s.prompts[k].invocations[q].responseID == ""
  {
    assert PromptValid(s.prompts[k], k, s);
    forall q | q in s.prompts[k].invocations
      ensures s.prompts[k].invocations[q].state.Intent? ==> s.prompts[k].invocations[q].responseID == ""
    {
      assert InvocationValid(s.prompts[k].invocations[q], q, k, s.prompts[k].settled, s);
    }
  }

  lemma SettledOneWeight(e: Encoding, s: Session, o: Owner, closing: set<PromptKey>, kind: Kind, remote: string, at: int, k: PromptKey)
    requires SessionValid(s, o) && Settleable(s, closing) && k in s.prompts
    ensures PromptWeight(e, SettlePrompts(s, closing, kind, remote, at).prompts[k]) <= PromptWeight(e, s.prompts[k])
  {
    if k in closing {
      UnaskedIntent(s, o, k);
      SettledWeight(e, s.prompts[k], Proof(s.owner, Some(k), remote, kind, at));
    }
  }

  lemma SettledEachWeight(e: Encoding, s: Session, o: Owner, closing: set<PromptKey>, kind: Kind, remote: string, at: int)
    requires SessionValid(s, o) && Settleable(s, closing)
    ensures var t := SettlePrompts(s, closing, kind, remote, at);
            forall k :: k in s.prompts ==> PromptWeight(e, t.prompts[k]) <= PromptWeight(e, s.prompts[k])
  {
    forall k | k in s.prompts
      ensures PromptWeight(e, SettlePrompts(s, closing, kind, remote, at).prompts[k]) <= PromptWeight(e, s.prompts[k])
    {
      SettledOneWeight(e, s, o, closing, kind, remote, at, k);
    }
  }

  lemma SettlePromptsWeight(e: Encoding, s: Session, closing: set<PromptKey>, kind: Kind, remote: string, at: int)
    requires var t := SettlePrompts(s, closing, kind, remote, at);
             forall k :: k in s.prompts ==> PromptWeight(e, t.prompts[k]) <= PromptWeight(e, s.prompts[k])
    ensures SessionWeight(e, SettlePrompts(s, closing, kind, remote, at)) <= SessionWeight(e, s)
  {
    PromptsPut(e, s, SettlePrompts(s, closing, kind, remote, at));
  }

  lemma RetiredWeight(e: Encoding, s: Session, created: bool, proof: Proof)
    requires !s.retired && s.proof.None? && (created <==> s.createState.Known?)
    ensures SessionWeight(e, Retired(s, created, proof)) <= SessionWeight(e, s)
  {
  }

  lemma CleanupWeight(e: Encoding, m: Session, o: Owner, k: Worker, w: World, at: int)
    requires SessionValid(m, o) && WorkerFacts(m, k, w) && k.stage.Evidence?
    requires CleanupChange(m, k.closing, k.retiring, k.createState.Known?, k.stage.kind, k.remote, at).Ok?
    ensures SessionWeight(e, CleanupChange(m, k.closing, k.retiring, k.createState.Known?, k.stage.kind, k.remote, at).value)
            <= SessionWeight(e, m)
  {
    CleanupStages(m, k.closing, k.retiring, k.createState.Known?, k.stage.kind, k.remote, at);
    ClosingSettleable(m, k);
    SettledEachWeight(e, m, o, k.closing, k.stage.kind, k.remote, at);
    SettlePromptsWeight(e, m, k.closing, k.stage.kind, k.remote, at);
    if k.retiring {
      RetirementBacked(m, k, w);
      RetiredWeight(e, SettlePrompts(m, k.closing, k.stage.kind, k.remote, at), k.createState.Known?,
                    Proof(m.owner, None, k.remote, k.stage.kind, at));
    }
  }

  // ---------------------------------------------------------------------------
  // The ledger
  // ---------------------------------------------------------------------------

  lemma PutWeight(e: Encoding, l: Ledger, o: Owner, t: Session, growth: nat)
    requires o in l.sessions && SessionWeight(e, t) <= SessionWeight(e, l.sessions[o]) + growth
    ensures LedgerWeight(e, PutSession(l, o, t)) <= LedgerWeight(e, l) + growth
  {
    TotalPut(l.sessions, o, t, SessionWeightOf(e));
    assert l.sessions[o := t].Keys == l.sessions.Keys;
    assert |l.sessions[o := t]| == |l.sessions[o := t].Keys| == |l.sessions.Keys|;
  }

  lemma EveryWeight(e: Encoding, l: Ledger, f: Session -> Session)
    requires forall o :: o in l.sessions ==> SessionWeight(e, f(l.sessions[o])) <= SessionWeight(e, l.sessions[o])
    ensures LedgerWeight(e, ForSessions(l, f)) <= LedgerWeight(e, l)
  {
    var m := ForSessions(l, f);
    assert m.sessions.Keys == l.sessions.Keys;
    assert |m.sessions| == |m.sessions.Keys| == |l.sessions|;
    TotalCompare(m.sessions, l.sessions, SessionWeightOf(e), SessionWeightOf(e));
  }

  /** A settlement or retirement under a key its owner has not used before, that uses reserved space. */
  predicate NewKey(s: System, e: Event) {
    && e.Controlled? && (e.path.Settle? || e.path.Retire?) && !Ordinary(s, e)
    && e.context.owner in s.b.mem.sessions
    && e.context.operationID !in s.b.mem.sessions[e.context.owner].operations
  }

  function Growth(s: System, e: Event): nat {
    if NewKey(s, e) then KEY_BYTES
    else if e.ProcMoves? && e.step.Identity? then ACCEPT_BYTES
    else 0
  }

  /** What is known of a request and its record when it asks for a change. */
  ghost predicate Grounds(s: System, o: Owner) {
    && CanStep(s, o)
    && (forall m :: Record(s.b.mem, o, m) ==> RecordInv(m, o, Some(s.procs[o]), WorldOf(s, o)) && SessionTexts(m))
    && (s.procs[o].pc.Prepared? ==> UuidValid(s.procs[o].pc.remote))
  }

  lemma CreateIntentWeight(e: Encoding, s: System, o: Owner, step: ProcEvent)
    requires Grounds(s, o) && step.CommitCreateIntent? && ProcNext(s, o, step).Some? && ProcNext(s, o, step).value.Ok?
    ensures SessionWeight(e, ProcNext(s, o, step).value.value) <= SessionWeight(e, s.b.mem.sessions[o])
  {
    hide HasInvocation;
    assert Record(s.b.mem, o, s.b.mem.sessions[o]);
    CreationWeight(e, s.b.mem.sessions[o], s.procs[o].pc.remote, CreateIntent);
  }

  lemma CreateResultWeight(e: Encoding, s: System, o: Owner, step: ProcEvent)
    requires Grounds(s, o) && step.CommitCreateResult? && ProcNext(s, o, step).Some?
    ensures ProcNext(s, o, step).value.Ok?
    ensures SessionWeight(e, ProcNext(s, o, step).value.value) <= SessionWeight(e, s.b.mem.sessions[o])
  {
    hide SessionWeight, PcFacts, ProcFacts, HasInvocation, PromptTexts, SessionStrong, ByteLength, CompleteChange, CreatesAccounted, CharBytes, SessionWorld;
    var m := s.b.mem.sessions[o];
    assert Record(s.b.mem, o, m);
    CreateResultEffect(m, s.procs[o], WorldOf(s, o));
    CreationWeight(e, m, if s.procs[o].pc.created then m.remoteID else "", if s.procs[o].pc.created then Known else NotCreated);
  }

  lemma IdentityAsked(s: System, o: Owner, step: ProcEvent)
    requires CanStep(s, o) && step.Identity? && ProcNext(s, o, step).Some? && ProcNext(s, o, step).value.Ok?
    ensures var p, m := s.procs[o], s.b.mem.sessions[o];
            && (p.pc.InferSent? || p.pc.Streaming?) && m.prompts[p.prompt].invocations[p.seqNo].responseID == ""
            && AliasValid(step.newAlias, RESPONSE_PREFIX) && step.newAlias !in m.responses
            && ByteLength(step.responseID) <= MAX_IDENTIFIER_BYTES
            && ProcNext(s, o, step).value.value == AcceptedSession(m, p.prompt, p.seqNo, step.responseID, step.newAlias)
  {
  }

  lemma SentIntent(m: Session, p: Proc, w: World)
    requires ProcFacts(m, p, w) && p.pc.InferSent?
    ensures m.prompts[p.prompt].invocations[p.seqNo].state.Intent?
  {
  }

  lemma IdentityFacts(s: System, o: Owner, step: ProcEvent)
    requires Grounds(s, o) && step.Identity? && ProcNext(s, o, step).Some? && ProcNext(s, o, step).value.Ok?
    ensures var p, m := s.procs[o], s.b.mem.sessions[o];
            && m.prompts[p.prompt].invocations[p.seqNo].state.Intent?
            && AliasValid(step.newAlias, RESPONSE_PREFIX) && step.newAlias !in m.responses
            && ByteLength(step.responseID) <= MAX_IDENTIFIER_BYTES
            && ProcNext(s, o, step).value.value == AcceptedSession(m, p.prompt, p.seqNo, step.responseID, step.newAlias)
  {
    var p, m := s.procs[o], s.b.mem.sessions[o];
    IdentityAsked(s, o, step);
    assert Record(s.b.mem, o, m);
    if p.pc.Streaming? { StreamingID(m, o, p, WorldOf(s, o)); } else { SentIntent(m, p, WorldOf(s, o)); }
  }

  lemma IdentityNextWeight(e: Encoding, s: System, o: Owner, step: ProcEvent)
    requires Grounds(s, o) && step.Identity? && ProcNext(s, o, step).Some? && ProcNext(s, o, step).value.Ok?
    ensures SessionWeight(e, ProcNext(s, o, step).value.value) <= SessionWeight(e, s.b.mem.sessions[o]) + ACCEPT_BYTES
  {
    var p, m := s.procs[o], s.b.mem.sessions[o];
    IdentityFacts(s, o, step);
    assert Record(s.b.mem, o, m);
    IntentUnanswered(m, o, p.prompt, p.seqNo);
    IdentityWeight(e, m, p.prompt, p.seqNo, step.responseID, step.newAlias);
  }

  lemma StateNextWeight(e: Encoding, s: System, o: Owner, step: ProcEvent)
    requires Grounds(s, o) && (step.CommitInferIntent? || step.CommitRefusal? || step.Finish?)
    requires ProcNext(s, o, step).Some? && ProcNext(s, o, step).value.Ok?
    ensures SessionWeight(e, ProcNext(s, o, step).value.value) <= SessionWeight(e, s.b.mem.sessions[o])
  {
    hide SessionWeight, SessionSound, PcFacts, SessionValid, ProcFacts, HasInvocation, SessionTexts, SessionStrong, PromptTexts, ByteLength, PutState;
    var p, m, w := s.procs[o], s.b.mem.sessions[o], WorldOf(s, o);
    assert Record(s.b.mem, o, m);
    match step
    case CommitInferIntent(_) =>
      InferIntentEffect(m, p, RequestCancelled(s.b, o), s.now, w);
      PutStateWeight(e, m, p.prompt, p.seqNo, Intent);
    case CommitRefusal(_) =>
      RefusalEffect(m, p, w);
      PutStateWeight(e, m, p.prompt, p.seqNo, Rejected);
    case Finish(_) => FinishWeight(e, m, p.prompt, p.seqNo, p.pc.outcome);
  }

  lemma ProcWeight(e: Encoding, s: System, o: Owner, step: ProcEvent)
    requires Grounds(s, o) && !step.Complete? && ProcNext(s, o, step).Some? && ProcNext(s, o, step).value.Ok?
    ensures SessionWeight(e, ProcNext(s, o, step).value.value)
            <= SessionWeight(e, s.b.mem.sessions[o]) + Growth(s, ProcMoves(o, step))
  {
    hide SessionWeight, Grounds, SessionSound;
    match step
    case CommitCreateIntent(_, _) => CreateIntentWeight(e, s, o, step);
    case CommitCreateResult(_) => CreateResultWeight(e, s, o, step);
    case Identity(_, _, _, _) => IdentityNextWeight(e, s, o, step);
    case _ => StateNextWeight(e, s, o, step);
  }

  lemma ProcGrounds(s: System, o: Owner)
    requires SystemInv(s) && TextsLedger(s.b.mem) && ProcsPrepared(s) && CanStep(s, o)
    ensures Grounds(s, o)
  {
    assert Record(s.b.mem, o, s.b.mem.sessions[o]);
    RecordNow(s, o, s.b.mem.sessions[o]);
  }

  lemma ControlWeight(e: Encoding, s: System, path: Path, c: Context, at: int, io: Io, l: Ledger)
    requires (path.Settle? || path.Retire?) && !ControlOrdinary(s.b.mem, path, c) && SafeString(c.operationID, MAX_FIELD_BYTES)
    requires ControlNext(s.b.mem, path, c, s.now) == Ok(l)
    ensures LedgerWeight(e, l) <= LedgerWeight(e, s.b.mem) + Growth(s, Controlled(path, c, at, io))
  {
    var m := s.b.mem.sessions[c.owner];
    if path.Settle? { SettleWeight(e, m, c); } else { RetireWeight(e, m, c); }
    PutWeight(e, s.b.mem, c.owner, ControlChange(m, path, c, s.now).value, Growth(s, Controlled(path, c, at, io)));
  }

  lemma DisconnectWeight(e: Encoding, l: Ledger, o: Owner, k: PromptKey)
    ensures LedgerWeight(e, Disconnect(l, o, k)) <= LedgerWeight(e, l)
  {
    if o in l.sessions {
      ClosePromptWeight(e, l.sessions[o], k);
      PutWeight(e, l, o, ClosePrompt(l.sessions[o], k), 0);
    }
  }

  lemma SweptWeight(e: Encoding, l: Ledger, now: int)
    ensures LedgerWeight(e, Swept(l, now)) <= LedgerWeight(e, l)
  {
    forall o | o in l.sessions ensures SessionWeight(e, ExpirePrompts(l.sessions[o], now)) <= SessionWeight(e, l.sessions[o]) {
      ExpireWeight(e, l.sessions[o], now);
    }
    EveryWeight(e, l, x => ExpirePrompts(x, now));
  }

  lemma RecoveredWeight(e: Encoding, l: Ledger)
    ensures LedgerWeight(e, Recovered(l)) <= LedgerWeight(e, l)
  {
    forall o | o in l.sessions ensures SessionWeight(e, RecoverPrompts(l.sessions[o])) <= SessionWeight(e, l.sessions[o]) {
      RecoverWeight(e, l.sessions[o]);
    }
    EveryWeight(e, l, x => RecoverPrompts(x));
  }

  lemma PinnedWeight(e: Encoding, l: Ledger, digest: string)
    requires digest != ""
    ensures LedgerWeight(e, l.(principal := digest)) <= LedgerWeight(e, l)
  {
  }

  lemma WorkerWeight(e: Encoding, s: System, o: Owner, move: WorkerEvent)
    requires SystemInv(s) && s.up && o in s.workers && o in s.b.mem.sessions
    requires WorkerNext(s, o, move).Some? && WorkerNext(s, o, move).value.Ok?
    ensures SessionWeight(e, WorkerNext(s, o, move).value.value) <= SessionWeight(e, s.b.mem.sessions[o])
  {
    assert OwnerInv(s, o);
    WorkerNow(s, o);
    SideOpen(s.b.mem, o, None, WorldOf(s, o));
    CleanupWeight(e, s.b.mem.sessions[o], o, s.workers[o], WorldOf(s, o), s.now);
  }

  /** Every reserved change stays within what was set aside for it. */
  lemma ReservedGrowth(e: Encoding, s: System, v: Event, l: Ledger)
    requires SystemInv(s) && TextsLedger(s.b.mem) && ProcsPrepared(s) && Writes(s, v, l) && !Ordinary(s, v)
    ensures LedgerWeight(e, l) <= LedgerWeight(e, s.b.mem) + Growth(s, v)
  {
    hide ProcNext, ProcessInv, SystemInv, OwnerInv, ReserveNext, ReserveChange, TranslatePrevious, WorkerFacts, EnsurePrompt;
    match v
    case Restart(_) => RecoveredWeight(e, s.b.mem);
    case Sweeping(_) => SweptWeight(e, s.b.mem, s.now);
    case Controlled(path, c, at, io) => ControlWeight(e, s, path, c, at, io, l);
    case Disconnected(o, k, _) => DisconnectWeight(e, s.b.mem, o, k);
    case Pinning(digest, _) => PinnedWeight(e, s.b.mem, digest);
    case ProcMoves(o, step) =>
      ProcGrounds(s, o);
      ProcWeight(e, s, o, step);
      PutWeight(e, s.b.mem, o, ProcNext(s, o, step).value.value, Growth(s, v));
    case WorkerMoves(o, move) =>
      WorkerWeight(e, s, o, move);
      PutWeight(e, s.b.mem, o, WorkerNext(s, o, move).value.value, 0);
  }
}
