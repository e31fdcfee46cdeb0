/** The steps of one request, against its owner's record and the remote world. */
module BrokerRequests {
  import opened Wrappers
  import opened BrokerLedger
  import opened BrokerChanges
  import opened BrokerValidity
  import opened BrokerAcceptance
  import opened BrokerSystem
  import opened BrokerInvariant
  import opened BrokerSteps

  function At(p: Proc, pc: Pc): Proc {
    p.(pc := pc)
  }

  // ---------------------------------------------------------------------------
  // Remote exchanges
  // ---------------------------------------------------------------------------

  lemma CreateDispatched(s: Session, p: Proc, w: World)
    requires SessionWorld(s, w) && ProcFacts(s, p, w) && p.pc.CreateReady?
    ensures SessionWorld(s, SentCreate(w, p.pc.remote))
    ensures ProcFacts(s, At(p, CreateSent(p.pc.remote)), SentCreate(w, p.pc.remote))
  {
    var w1 := SentCreate(w, p.pc.remote);
    forall key | key in w1.infers ensures InferAccounted(s, key, w1.infers[key]) {
      assert InferAccounted(s, key, w.infers[key]);
    }
  }

  lemma CreateAnsweredYes(s: Session, p: Proc, w: World)
    requires SessionWorld(s, w) && ProcFacts(s, p, w) && p.pc.CreateSent?
    ensures SessionWorld(s, AckedCreate(w, p.pc.remote))
    ensures ProcFacts(s, At(p, CreateAnswered(p.pc.remote, true)), AckedCreate(w, p.pc.remote))
  {
    var w1 := AckedCreate(w, p.pc.remote);
    forall key | key in w1.infers ensures InferAccounted(s, key, w1.infers[key]) {
      assert InferAccounted(s, key, w.infers[key]);
    }
  }

  lemma CreateAnsweredNo(s: Session, p: Proc, w: World)
    requires SessionWorld(s, w) && ProcFacts(s, p, w) && p.pc.CreateSent?
    ensures SessionWorld(s, RefusedCreate(w, p.pc.remote))
    ensures ProcFacts(s, At(p, CreateAnswered(p.pc.remote, false)), RefusedCreate(w, p.pc.remote))
  {
    var w1 := RefusedCreate(w, p.pc.remote);
    forall key | key in w1.infers ensures InferAccounted(s, key, w1.infers[key]) {
      assert InferAccounted(s, key, w.infers[key]);
    }
  }

  lemma InferDispatched(s: Session, p: Proc, w: World)
    requires SessionWorld(s, w) && ProcFacts(s, p, w) && p.pc.InferReady?
    ensures SessionWorld(s, SentInfer(w, p))
    ensures ProcFacts(s, At(p, InferSent(p.pc.remote)), SentInfer(w, p))
  {
    var w1 := SentInfer(w, p);
    forall key | key in w1.infers ensures InferAccounted(s, key, w1.infers[key]) {
      if key != KeyOf(p) {
        assert InferAccounted(s, key, w.infers[key]);
      }
    }
  }

  lemma InferAnsweredNo(s: Session, p: Proc, w: World)
    requires SessionWorld(s, w) && ProcFacts(s, p, w) && p.pc.InferSent?
    ensures SessionWorld(s, RefusedInfer(w, KeyOf(p)))
    ensures ProcFacts(s, At(p, InferRefused(p.pc.remote)), RefusedInfer(w, KeyOf(p)))
  {
    var w1 := RefusedInfer(w, KeyOf(p));
    forall key | key in w1.infers ensures InferAccounted(s, key, w1.infers[key]) {
      assert InferAccounted(s, key, w.infers[key]);
    }
  }

  lemma InferAnsweredYes(s: Session, p: Proc, w: World)
    requires SessionWorld(s, w) && ProcFacts(s, p, w)
    ensures SessionWorld(s, AckedInfer(w, KeyOf(p)))
    ensures ProcFacts(s, p, AckedInfer(w, KeyOf(p)))
  {
    var w1 := AckedInfer(w, KeyOf(p));
    forall key | key in w1.infers ensures InferAccounted(s, key, w1.infers[key]) {
      assert InferAccounted(s, key, w.infers[key]);
    }
  }

  /** The moves of a request that touch no ledger. */
  ghost predicate Exchange(p: Proc, w: World, pc: Pc, w1: World) {
    match p.pc
    case Started | Prepared(_) | CreateAnswered(_, _) | SessionReady(_) | InferRefused(_) => pc == Ended(Failed) && w1 == w
    case CreateReady(r) =>
      || (pc == CreateSent(r) && w1 == SentCreate(w, r))
      || (pc == CreateAnswered(r, false) && w1 == w)
    case CreateSent(r) =>
      || (pc == CreateAnswered(r, true) && w1 == AckedCreate(w, r))
      || (pc == CreateAnswered(r, false) && w1 == RefusedCreate(w, r))
      || (pc == Ended(AcceptanceUnknown) && w1 == w)
    case InferReady(r) =>
      || (pc == InferSent(r) && w1 == SentInfer(w, p))
      || (pc == Ended(Failed) && w1 == w)
    case InferSent(r) =>
      || (pc == InferRefused(r) && w1 == RefusedInfer(w, KeyOf(p)))
      || (pc == p.pc && w1 == AckedInfer(w, KeyOf(p)))
      || (pc == Ended(AcceptanceUnknown) && w1 == w)
    case Streaming(r, _) => (pc == Ended(AcceptanceUnknown) || pc == Ended(Failed)) && w1 == w
    case Ended(_) => false
  }

  lemma SentKept(s: Session, p: Proc, w: World)
    requires ProcFacts(s, p, w) && p.pc.InferSent?
    ensures KeyOf(p) in w.infers
  {
  }

  lemma StayedProc(s: Session, p: Proc, w: World, pc: Pc)
    requires ProcFacts(s, p, w) && Exchange(p, w, pc, w)
    ensures ProcFacts(s, At(p, pc), w)
  {
  }

  lemma ExchangeRecord(s: Session, o: Owner, p: Proc, w: World, pc: Pc, w1: World)
    requires RecordInv(s, o, Some(p), w) && Exchange(p, w, pc, w1)
    ensures RecordInv(s, o, Some(At(p, pc)), w1)
  {
    if w1 == w {
      StayedProc(s, p, w, pc);
    } else {
      ExchangeMoved(s, p, w, pc, w1);
    }
  }

  lemma ExchangeMoved(s: Session, p: Proc, w: World, pc: Pc, w1: World)
    requires SessionWorld(s, w) && ProcFacts(s, p, w) && Exchange(p, w, pc, w1) && w1 != w
    ensures SessionWorld(s, w1) && ProcFacts(s, At(p, pc), w1)
  {
    match p.pc
    case CreateReady(_) => CreateDispatched(s, p, w);
    case CreateSent(_) => CreateAnsweredYes(s, p, w); CreateAnsweredNo(s, p, w);
    case InferReady(_) => InferDispatched(s, p, w);
    case InferSent(_) => InferAnsweredNo(s, p, w); InferAnsweredYes(s, p, w);
    case _ =>
  }

  // ---------------------------------------------------------------------------
  // Commits
  // ---------------------------------------------------------------------------

  /** After a commit that may or may not be durable: where the request is in either case. */
  ghost predicate Committed(s: Session, t: Session, o: Owner, p: Proc, done: Pc, failed: Pc, w: World) {
    WorkStep(s, t, o, w) && ProcFacts(t, At(p, done), w) && ProcFacts(t, At(p, failed), w)
  }

  lemma CreationWorld(s: Session, remote: string, state: CreateState, w: World)
    requires SessionWorld(s, w) && CreatesAccounted(s.(remoteID := remote, createState := state), w)
    ensures SessionWorld(s.(remoteID := remote, createState := state), w)
  {
    var t := s.(remoteID := remote, createState := state);
    forall key | key in w.infers ensures InferAccounted(t, key, w.infers[key]) {
      assert InferAccounted(s, key, w.infers[key]);
    }
  }

  lemma CreationStep(s: Session, o: Owner, remote: string, state: CreateState, w: World)
    requires SessionSound(s, o) && SessionWorld(s, w) && !s.retired && !state.Deleted?
    requires CreationValid(s.(remoteID := remote, createState := state))
    requires CreatesAccounted(s.(remoteID := remote, createState := state), w)
    requires state.CreateIntent? ==> s.responses == map[]
    ensures WorkStep(s, s.(remoteID := remote, createState := state), o, w)
  {
    CreationFrame(s, remote, state, o);
    CreationStrong(s, remote, state);
    CreationAdvances(s, remote, state);
    CreationWorld(s, remote, state, w);
  }

  lemma CreateIntentEffect(s: Session, p: Proc, cancelled: bool, now: int, w: World)
    requires SessionWorld(s, w) && ProcFacts(s, p, w) && p.pc.Prepared?
    requires CreateIntentChange(s, p.prompt, p.pc.remote, cancelled, now).Ok?
    ensures var t := s.(remoteID := p.pc.remote, createState := CreateIntent);
            && t == CreateIntentChange(s, p.prompt, p.pc.remote, cancelled, now).value
            && !s.retired && s.createState.NotCreated? && p.pc.remote != ""
            && CreatesAccounted(t, w)
            && ProcFacts(t, At(p, CreateReady(p.pc.remote)), w) && ProcFacts(t, At(p, Ended(Failed)), w)
  {
  }

  lemma CreateIntentCommitted(s: Session, o: Owner, p: Proc, cancelled: bool, now: int, w: World)
    requires SessionSound(s, o) && SessionWorld(s, w) && ProcFacts(s, p, w) && p.pc.Prepared?
    requires CreateIntentChange(s, p.prompt, p.pc.remote, cancelled, now).Ok?
    ensures Committed(s, CreateIntentChange(s, p.prompt, p.pc.remote, cancelled, now).value, o, p,
                      CreateReady(p.pc.remote), Ended(Failed), w)
  {
    CreateIntentEffect(s, p, cancelled, now, w);
    CreationStep(s, o, p.pc.remote, CreateIntent, w);
  }

  lemma CreateResultEffect(s: Session, p: Proc, w: World)
    requires SessionWorld(s, w) && ProcFacts(s, p, w) && p.pc.CreateAnswered?
    ensures var t := s.(remoteID := if p.pc.created then s.remoteID else "", createState := if p.pc.created then Known else NotCreated);
            && t == CreateResultChange(s, p.pc.created)
            && !s.retired && s.createState.CreateIntent?
            && CreatesAccounted(t, w)
            && (p.pc.created ==> ProcFacts(t, At(p, SessionReady(p.pc.remote)), w)) && ProcFacts(t, At(p, Ended(Failed)), w)
  {
  }

  lemma CreateResultCommitted(s: Session, o: Owner, p: Proc, w: World)
    requires SessionSound(s, o) && SessionWorld(s, w) && ProcFacts(s, p, w) && p.pc.CreateAnswered?
    ensures Committed(s, CreateResultChange(s, p.pc.created), o, p,
                      if p.pc.created then SessionReady(p.pc.remote) else Ended(Failed), Ended(Failed), w)
  {
    CreateResultEffect(s, p, w);
    CreationStep(s, o, if p.pc.created then s.remoteID else "", if p.pc.created then Known else NotCreated, w);
  }

  lemma PutStateWorld(s: Session, k: PromptKey, q: nat, state: InvocationState, w: World)
    requires SessionWorld(s, w) && HasInvocation(s, k, q)
    requires InferKey(k, q) in w.infers ==> Fate(state, w.infers[InferKey(k, q)])
    ensures SessionWorld(PutState(s, k, q, state), w)
  {
    var t := PutState(s, k, q, state);
    forall key | key in w.infers ensures InferAccounted(t, key, w.infers[key]) {
      assert InferAccounted(s, key, w.infers[key]);
    }
  }

  lemma StateStep(s: Session, o: Owner, k: PromptKey, q: nat, state: InvocationState, w: World)
    requires SessionSound(s, o) && SessionWorld(s, w) && HasInvocation(s, k, q)
    requires Unaccepted(s.prompts[k].invocations[q].state) && Unaccepted(state)
    requires StateAdvances(s.prompts[k].invocations[q].state, state)
    requires InferKey(k, q) in w.infers ==> Fate(state, w.infers[InferKey(k, q)])
    ensures WorkStep(s, PutState(s, k, q, state), o, w)
  {
    StateSound(s, k, q, state, o);
    InvocationPutStrong(s, k, q, s.prompts[k].invocations[q].(state := state));
    InvocationPutAdvances(s, k, q, s.prompts[k].invocations[q].(state := state));
    PutStateWorld(s, k, q, state, w);
  }

  /** A reserved invocation was never sent. */
  lemma ReservedUnsent(s: Session, p: Proc, w: World)
    requires SessionWorld(s, w) && ProcBase(s, p) && s.prompts[p.prompt].invocations[p.seqNo].state.Reserved?
    ensures Unsent(w, p)
  {
    assert KeyOf(p) in w.infers ==> InferAccounted(s, KeyOf(p), w.infers[KeyOf(p)]);
  }

  lemma InferIntentEffect(s: Session, p: Proc, cancelled: bool, now: int, w: World)
    requires SessionWorld(s, w) && ProcFacts(s, p, w) && p.pc.SessionReady?
    requires InferIntentChange(s, p.prompt, p.seqNo, cancelled, now).Ok?
    ensures var t := PutState(s, p.prompt, p.seqNo, Intent);
            && t == InferIntentChange(s, p.prompt, p.seqNo, cancelled, now).value
            && s.prompts[p.prompt].invocations[p.seqNo].state.Reserved? && Unsent(w, p)
            && ProcFacts(t, At(p, InferReady(p.pc.remote)), w) && ProcFacts(t, At(p, Ended(Failed)), w)
  {
    ReservedUnsent(s, p, w);
  }

  lemma InferIntentCommitted(s: Session, o: Owner, p: Proc, cancelled: bool, now: int, w: World)
    requires SessionSound(s, o) && SessionWorld(s, w) && ProcFacts(s, p, w) && p.pc.SessionReady?
    requires InferIntentChange(s, p.prompt, p.seqNo, cancelled, now).Ok?
    ensures Committed(s, InferIntentChange(s, p.prompt, p.seqNo, cancelled, now).value, o, p,
                      InferReady(p.pc.remote), Ended(Failed), w)
  {
    InferIntentEffect(s, p, cancelled, now, w);
    StateStep(s, o, p.prompt, p.seqNo, Intent, w);
  }

  lemma RefusalEffect(s: Session, p: Proc, w: World)
    requires SessionWorld(s, w) && ProcFacts(s, p, w) && p.pc.InferRefused?
    ensures s.prompts[p.prompt].invocations[p.seqNo].state.Intent?
    ensures KeyOf(p) in w.infers && w.infers[KeyOf(p)].rejected
    ensures ProcFacts(RefusalChange(s, p.prompt, p.seqNo), At(p, Ended(Failed)), w)
  {
  }

  lemma RefusalCommitted(s: Session, o: Owner, p: Proc, w: World)
    requires SessionSound(s, o) && SessionWorld(s, w) && ProcFacts(s, p, w) && p.pc.InferRefused?
    ensures Committed(s, RefusalChange(s, p.prompt, p.seqNo), o, p, Ended(Failed), Ended(Failed), w)
  {
    RefusalEffect(s, p, w);
    StateStep(s, o, p.prompt, p.seqNo, Rejected, w);
  }

  lemma IdentityWorld(s: Session, k: PromptKey, q: nat, id: string, alias: string, w: World)
    requires SessionWorld(s, w) && HasInvocation(s, k, q)
    requires InferKey(k, q) in w.infers ==> w.infers[InferKey(k, q)].acked
    ensures SessionWorld(AcceptedSession(s, k, q, id, alias), w)
  {
    var t := AcceptedSession(s, k, q, id, alias);
    forall key | key in w.infers ensures InferAccounted(t, key, w.infers[key]) {
      assert InferAccounted(s, key, w.infers[key]);
    }
  }

  lemma IdentityEffect(s: Session, p: Proc, id: string, alias: string, w: World)
    requires ProcFacts(s, p, w) && p.pc.InferSent? && IdentityChange(s, p.prompt, p.seqNo, id, alias).Ok?
    ensures var t := AcceptedSession(s, p.prompt, p.seqNo, id, alias);
            && t == IdentityChange(s, p.prompt, p.seqNo, id, alias).value
            && s.prompts[p.prompt].invocations[p.seqNo].state.Intent? && s.createState.Known?
            && ProcFacts(t, At(p, Streaming(p.pc.remote, id)), w) && ProcFacts(t, At(p, Ended(AcceptanceUnknown)), w)
  {
  }

  lemma IdentityCommitted(s: Session, o: Owner, p: Proc, id: string, alias: string, w: World)
    requires SessionSound(s, o) && SessionWorld(s, w) && ProcFacts(s, p, w) && p.pc.InferSent?
    requires id != "" && alias != "" && alias !in s.responses
    requires KeyOf(p) in w.infers && w.infers[KeyOf(p)].acked && IdentityChange(s, p.prompt, p.seqNo, id, alias).Ok?
    ensures Committed(s, IdentityChange(s, p.prompt, p.seqNo, id, alias).value, o, p,
                      Streaming(p.pc.remote, id), Ended(AcceptanceUnknown), w)
  {
    IdentityEffect(s, p, id, alias, w);
    IdentityStep(s, o, p.prompt, p.seqNo, id, alias, w);
  }

  lemma IdentityStep(s: Session, o: Owner, k: PromptKey, q: nat, id: string, alias: string, w: World)
    requires SessionSound(s, o) && SessionWorld(s, w) && HasInvocation(s, k, q) && s.createState.Known?
    requires s.prompts[k].invocations[q].state.Intent?
    requires id != "" && alias != "" && alias !in s.responses && IdentityChange(s, k, q, id, alias).Ok?
    requires InferKey(k, q) in w.infers ==> w.infers[InferKey(k, q)].acked
    ensures WorkStep(s, AcceptedSession(s, k, q, id, alias), o, w)
  {
    IdentityValidKept(s, o, k, q, id, alias);
    IdentityStrong(s, k, q, id, alias);
    IdentityAdvances(s, o, k, q, id, alias);
    IdentityWorld(s, k, q, id, alias, w);
  }

  lemma CompletedWorld(s: Session, k: PromptKey, q: nat, link: Link, w: World)
    requires SessionWorld(s, w) && HasInvocation(s, k, q) && s.prompts[k].invocations[q].state.Accepted?
    ensures SessionWorld(CompletedSession(s, k, q, link), w)
  {
    var t := CompletedSession(s, k, q, link);
    forall key | key in w.infers ensures InferAccounted(t, key, w.infers[key]) {
      assert InferAccounted(s, key, w.infers[key]);
    }
  }

  lemma {:induction false} CallMapInjective(calls: seq<string>, aliases: seq<string>)
    requires |calls| == |aliases| && forall i, j :: 0 <= i < j < |calls| ==> calls[i] != calls[j]
    ensures Injective(CallMap(calls, aliases))
    ensures forall c :: c in CallMap(calls, aliases) ==> CallMap(calls, aliases)[c] in calls
  {
    if calls != [] {
      CallMapInjective(calls[..|calls| - 1], aliases[..|calls| - 1]);
    }
  }

  lemma CompleteStages(s: Session, k: PromptKey, q: nat, r: Summary, aliases: seq<string>, now: int)
    requires HasInvocation(s, k, q) && |aliases| == |r.calls| && CompleteChange(s, k, q, r, aliases, now).Ok?
    ensures var i := s.prompts[k].invocations[q];
            && i.responseID == r.responseID && i.alias in s.responses
            && !s.prompts[k].closing && s.prompts[k].leaseExpires > now && CallsAdmissible(r.calls)
            && var calls := CallMap(r.calls, aliases);
               var link := s.responses[i.alias].(completed := true, hasFunctions := |calls| != 0, callIDs := calls);
               Completes(s.responses[i.alias], link) && CompleteChange(s, k, q, r, aliases, now).value == CompletedSession(s, k, q, link)
  {
    CallMapInjective(r.calls, aliases);
  }

  lemma CompletionEffect(s: Session, p: Proc, link: Link, w: World)
    requires ProcFacts(s, p, w) && p.pc.Streaming?
    ensures var t := CompletedSession(s, p.prompt, p.seqNo, link);
            && s.prompts[p.prompt].invocations[p.seqNo].state.Accepted? && s.createState.Known?
            && p.seqNo == s.prompts[p.prompt].lastSequence
            && ProcFacts(t, At(p, Ended(Success)), w) && ProcFacts(t, At(p, Ended(Failed)), w)
  {
  }

  lemma CompletionStep(s: Session, o: Owner, k: PromptKey, q: nat, link: Link, w: World)
    requires SessionSound(s, o) && SessionWorld(s, w) && HasInvocation(s, k, q) && s.createState.Known?
    requires s.prompts[k].invocations[q].state.Accepted? && q == s.prompts[k].lastSequence
    requires s.prompts[k].invocations[q].alias in s.responses
    requires Completes(s.responses[s.prompts[k].invocations[q].alias], link)
    ensures WorkStep(s, CompletedSession(s, k, q, link), o, w)
  {
    CompletedValid(s, o, k, q, link);
    CompletedStrong(s, k, q, link);
    CompletedAdvances(s, o, k, q, link);
    CompletedWorld(s, k, q, link, w);
  }

  lemma CompletionCommitted(s: Session, o: Owner, p: Proc, r: Summary, aliases: seq<string>, now: int, w: World)
    requires SessionSound(s, o) && SessionWorld(s, w) && ProcFacts(s, p, w) && p.pc.Streaming? && |aliases| == |r.calls|
    requires CompleteChange(s, p.prompt, p.seqNo, r, aliases, now).Ok?
    ensures Committed(s, CompleteChange(s, p.prompt, p.seqNo, r, aliases, now).value, o, p, Ended(Success), Ended(Failed), w)
  {
    CompleteStages(s, p.prompt, p.seqNo, r, aliases, now);
    var i := s.prompts[p.prompt].invocations[p.seqNo];
    var calls := CallMap(r.calls, aliases);
    var link := s.responses[i.alias].(completed := true, hasFunctions := |calls| != 0, callIDs := calls);
    CompletionEffect(s, p, link, w);
    CompletionStep(s, o, p.prompt, p.seqNo, link, w);
  }

  lemma FinishStateEffect(s: Session, p: Proc, w: World)
    requires SessionWorld(s, w) && ProcFacts(s, p, w) && p.pc.Ended? && !p.pc.outcome.Success?
    ensures var i := s.prompts[p.prompt].invocations[p.seqNo];
            var state := FinalState(i.state, p.pc.outcome);
            if i.state.Reserved? || i.state.Intent? then
              Unaccepted(state) && StateAdvances(i.state, state) && (KeyOf(p) in w.infers ==> Fate(state, w.infers[KeyOf(p)]))
            else PutState(s, p.prompt, p.seqNo, state) == s
  {
    var i := s.prompts[p.prompt].invocations[p.seqNo];
    if i.state.Reserved? {
      ReservedUnsent(s, p, w);
    } else if !i.state.Intent? {
      assert i.(state := i.state) == i;
      assert WithInvocation(s.prompts[p.prompt], p.seqNo, i) == s.prompts[p.prompt];
    }
  }

  lemma FinishStateStep(s: Session, o: Owner, p: Proc, w: World)
    requires SessionSound(s, o) && SessionWorld(s, w) && ProcFacts(s, p, w) && p.pc.Ended? && !p.pc.outcome.Success?
    ensures WorkStep(s, PutState(s, p.prompt, p.seqNo,
                                 FinalState(s.prompts[p.prompt].invocations[p.seqNo].state, p.pc.outcome)), o, w)
  {
    var i := s.prompts[p.prompt].invocations[p.seqNo];
    FinishStateEffect(s, p, w);
    if i.state.Reserved? || i.state.Intent? {
      StateStep(s, o, p.prompt, p.seqNo, FinalState(i.state, p.pc.outcome), w);
    } else {
      CalmSelf(s, o);
    }
  }

  lemma FinishCommitted(s: Session, o: Owner, p: Proc, w: World)
    requires SessionSound(s, o) && SessionWorld(s, w) && ProcFacts(s, p, w) && p.pc.Ended?
    ensures WorkStep(s, FinishChange(s, p.prompt, p.seqNo, p.pc.outcome), o, w)
  {
    if p.pc.outcome.Success? {
      CalmSelf(s, o);
    } else {
      FinishStateStep(s, o, p, w);
      var t := PutState(s, p.prompt, p.seqNo, FinalState(s.prompts[p.prompt].invocations[p.seqNo].state, p.pc.outcome));
      ClosePromptCalm(t, p.prompt, o);
      SameWorkWorld(t, ClosePrompt(t, p.prompt), w);
      SessionAdvancesTrans(s, t, ClosePrompt(t, p.prompt));
    }
  }
}
