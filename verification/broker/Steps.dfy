/** Each change of one owner's record, against the remote world and the request in flight. */
module BrokerSteps {
  import opened Wrappers
  import opened BrokerLedger
  import opened BrokerChanges
  import opened BrokerValidity
  import opened BrokerSystem
  import opened BrokerInvariant

  // ---------------------------------------------------------------------------
  // Changes that leave the work of an owner alone
  // ---------------------------------------------------------------------------

  ghost predicate SamePromptWork(p: Prompt, p1: Prompt) {
    && p1.invocations == p.invocations && p1.settled == p.settled && p1.lastSequence == p.lastSequence
    && (p.closing ==> p1.closing)
  }

  /** Nothing an invocation, a creation or a settlement depends on has changed. */
  ghost predicate SameWork(s: Session, t: Session) {
    && t.createState == s.createState && t.remoteID == s.remoteID && t.retired == s.retired
    && (s.retiring ==> t.retiring)
    && (forall k :: k in s.prompts ==> k in t.prompts && SamePromptWork(s.prompts[k], t.prompts[k]))
    && (forall k :: k in t.prompts && k !in s.prompts ==> t.prompts[k].invocations == map[])
    && (s.current.Some? && s.current.value in s.prompts && !s.prompts[s.current.value].settled ==> t.current == s.current)
  }

  lemma SameWorkWorld(s: Session, t: Session, w: World)
    requires SessionWorld(s, w) && SameWork(s, t)
    ensures SessionWorld(t, w)
  {
    forall key | key in w.infers ensures InferAccounted(t, key, w.infers[key]) {
      assert InferAccounted(s, key, w.infers[key]);
    }
  }

  lemma SameWorkProc(s: Session, t: Session, p: Proc, w: World)
    requires ProcFacts(s, p, w) && SameWork(s, t)
    ensures ProcFacts(t, p, w)
  {
  }

  lemma SameWorkWorker(s: Session, t: Session, k: Worker, w: World)
    requires WorkerFacts(s, k, w) && SameWork(s, t)
    ensures WorkerFacts(t, k, w)
  {
    if SessionAmbiguous(t) {
      var c, q :| c in t.prompts && q in t.prompts[c].invocations && AmbiguousInvocation(t.prompts[c].invocations[q]);
      assert c in s.prompts && AmbiguousInvocation(s.prompts[c].invocations[q]);
    }
  }

  lemma SameWorkTrans(s: Session, t: Session, u: Session)
    requires SameWork(s, t) && SameWork(t, u)
    requires s.current.Some? && s.current.value in s.prompts && !s.prompts[s.current.value].settled
             ==> t.current.Some? && t.current.value in t.prompts && !t.prompts[t.current.value].settled
    ensures SameWork(s, u)
  {
  }

  lemma RecordSameWork(s: Session, path: Path, c: Context)
    requires RecordOperation(s, path, c).Ok?
    ensures SameWork(s, RecordOperation(s, path, c).value.0)
  {
  }

  lemma EnsureSameWork(s: Session, c: Context)
    requires EnsurePrompt(s, c).Ok?
    ensures SameWork(s, EnsurePrompt(s, c).value)
  {
  }

  lemma CloseSameWork(s: Session, t: Session)
    requires OnlyCloses(s, t)
    ensures SameWork(s, t)
  {
  }

  lemma LeaseSameWork(s: Session, k: PromptKey, c: Context, now: int)
    requires k in s.prompts && RenewLease(s.prompts[k], c, now).Ok?
    ensures SameWork(s, PutPrompt(s, k, RenewLease(s.prompts[k], c, now).value))
  {
  }

  // ---------------------------------------------------------------------------
  // Controls, closing, expiry and recovery
  // ---------------------------------------------------------------------------

  lemma InvocationAdvancesTrans(a: Invocation, b: Invocation, c: Invocation)
    requires InvocationAdvances(a, b) && InvocationAdvances(b, c)
    ensures InvocationAdvances(a, c)
  {
  }

  lemma PromptAdvancesTrans(a: Prompt, b: Prompt, c: Prompt)
    requires PromptAdvances(a, b) && PromptAdvances(b, c)
    ensures PromptAdvances(a, c)
  {
    forall q | q in a.invocations ensures q in c.invocations && InvocationAdvances(a.invocations[q], c.invocations[q]) {
      InvocationAdvancesTrans(a.invocations[q], b.invocations[q], c.invocations[q]);
    }
  }

  lemma SessionAdvancesTrans(a: Session, b: Session, c: Session)
    requires SessionAdvances(a, b) && SessionAdvances(b, c)
    ensures SessionAdvances(a, c)
  {
    forall k | k in a.prompts ensures k in c.prompts && PromptAdvances(a.prompts[k], c.prompts[k]) {
      PromptAdvancesTrans(a.prompts[k], b.prompts[k], c.prompts[k]);
    }
    forall r | r in a.responses ensures r in c.responses && LinkAdvances(a.responses[r], c.responses[r]) {
      assert LinkAdvances(a.responses[r], b.responses[r]);
    }
  }

  /** A valid step of one record that leaves its owner's work alone. */
  ghost predicate CalmStep(s: Session, t: Session, o: Owner) {
    SessionSound(t, o) && SessionAdvances(s, t) && SameWork(s, t)
  }

  /** The part of the parser's findings that the structure of a record depends on. */
  ghost predicate Admissible(path: Path, c: Context) {
    path.Retire? || (c.prompt.taskAttempt > 0 && 0 < c.leaseGeneration <= MAX_UINT64)
  }

  lemma RecordCalm(s: Session, path: Path, c: Context, o: Owner)
    requires SessionSound(s, o) && RecordOperation(s, path, c).Ok?
    ensures CalmStep(s, RecordOperation(s, path, c).value.0, o)
  {
    OperationRecorded(s, path, c);
    OperationsGrow(s, RecordOperation(s, path, c).value.0.operations, o);
    OperationStrong(s, path, c);
    OperationAdvances(s, path, c);
    RecordSameWork(s, path, c);
  }

  lemma EnsureCalm(s: Session, c: Context, o: Owner)
    requires SessionSound(s, o) && c.owner == o && c.operationID in s.operations && EnsurePrompt(s, c).Ok?
    requires c.prompt.taskAttempt > 0 && 0 < c.leaseGeneration <= MAX_UINT64
    ensures CalmStep(s, EnsurePrompt(s, c).value, o)
  {
    PromptEnsured(s, c, o);
    EnsureStrong(s, c);
    EnsureAdvances(s, c);
    EnsureSameWork(s, c);
  }

  lemma CloseCalm(s: Session, t: Session, o: Owner)
    requires SessionSound(s, o) && OnlyCloses(s, t)
    requires t.retiring ==> forall k :: k in t.prompts ==> t.prompts[k].closing
    ensures CalmStep(s, t, o)
  {
    ClosingValid(s, t, o);
    ClosingStrong(s, t);
    ClosingAdvances(s, t);
    CloseSameWork(s, t);
  }

  lemma LeaseSound(s: Session, k: PromptKey, c: Context, now: int, o: Owner)
    requires SessionSound(s, o) && k in s.prompts && RenewLease(s.prompts[k], c, now).Ok?
    requires 0 < c.leaseGeneration <= MAX_UINT64
    ensures SessionSound(PutPrompt(s, k, RenewLease(s.prompts[k], c, now).value), o)
  {
    hide RenewLease, SessionStrong, SessionShapeValid, LinksExact;
    var p := RenewLease(s.prompts[k], c, now).value;
    assert PromptValid(s.prompts[k], k, s);
    LeaseValid(s.prompts[k], c, now, k, s);
    LeaseKeepsWork(s.prompts[k], c, now);
    LeaseProducers(s, k, p);
    PromptReplaced(s, k, p, o);
    LeaseStrong(s, k, p);
  }

  lemma LeaseKeepsWork(p: Prompt, c: Context, now: int)
    requires RenewLease(p, c, now).Ok?
    ensures RenewLease(p, c, now).value.invocations == p.invocations && RenewLease(p, c, now).value.lastAlias == p.lastAlias
  {
  }

  lemma LeaseProducers(s: Session, k: PromptKey, p: Prompt)
    requires k in s.prompts && p.invocations == s.prompts[k].invocations
    ensures SameProducers(s, PutPrompt(s, k, p))
  {
  }

  lemma LeaseStrong(s: Session, k: PromptKey, p: Prompt)
    requires SessionStrong(s) && k in s.prompts && p.invocations == s.prompts[k].invocations
    ensures SessionStrong(PutPrompt(s, k, p))
  {
    var t := PutPrompt(s, k, p);
    forall l, q | HasInvocation(t, l, q) ensures AdmittedAs(t, t.prompts[l].invocations[q], l, q) {
      assert HasInvocation(s, l, q);
    }
  }

  /** A renewal raises the lease generation by exactly one, or leaves the lease as it is. */
  lemma RenewalByOne(p: Prompt, c: Context, now: int)
    requires RenewLease(p, c, now).Ok? && 0 < c.leaseGeneration <= MAX_UINT64 && p.leaseGeneration <= MAX_UINT64
    ensures var p1 := RenewLease(p, c, now).value;
            && (p1 == p || (p1.leaseGeneration == p.leaseGeneration + 1 && p.leaseExpires <= p1.leaseExpires && now < p.leaseExpires))
            && PromptAdvances(p, p1)
  {
    PromptAdvancesSelf(p);
  }

  lemma LeaseAdvances(s: Session, k: PromptKey, p: Prompt)
    requires k in s.prompts && PromptAdvances(s.prompts[k], p) && p.lastAlias == s.prompts[k].lastAlias
    ensures SessionAdvances(s, PutPrompt(s, k, p))
  {
    var t := PutPrompt(s, k, p);
    forall l | l in s.prompts ensures PromptAdvances(s.prompts[l], t.prompts[l]) {
      if l != k { PromptAdvancesSelf(s.prompts[l]); }
    }
    AdvancesByPrompts(s, t);
  }

  lemma LeaseCalm(s: Session, k: PromptKey, c: Context, now: int, o: Owner)
    requires SessionSound(s, o) && k in s.prompts && RenewLease(s.prompts[k], c, now).Ok?
    requires 0 < c.leaseGeneration <= MAX_UINT64
    ensures CalmStep(s, PutPrompt(s, k, RenewLease(s.prompts[k], c, now).value), o)
  {
    LeaseSound(s, k, c, now, o);
    LeaseSameWork(s, k, c, now);
    assert PromptValid(s.prompts[k], k, s);
    RenewalByOne(s.prompts[k], c, now);
    LeaseAdvances(s, k, RenewLease(s.prompts[k], c, now).value);
  }

  lemma CalmTrans(s: Session, t: Session, u: Session, o: Owner)
    requires CalmStep(s, t, o) && CalmStep(t, u, o)
    ensures CalmStep(s, u, o)
  {
    SessionAdvancesTrans(s, t, u);
    SameWorkTrans(s, t, u);
  }

  lemma MappedCloseCalm(s: Session, t: Session, o: Owner)
    requires SessionSound(s, o) && t == s.(prompts := t.prompts) && t.prompts.Keys == s.prompts.Keys
    requires forall k :: k in s.prompts ==> Closes(s.prompts[k], t.prompts[k])
    ensures CalmStep(s, t, o)
  {
    forall l | l in t.prompts ensures s.retiring ==> t.prompts[l].closing {
      assert PromptValid(s.prompts[l], l, s);
    }
    CloseCalm(s, t, o);
  }

  lemma CalmSelf(s: Session, o: Owner)
    requires SessionSound(s, o)
    ensures CalmStep(s, s, o)
  {
    MappedCloseCalm(s, s, o);
  }

  lemma ClosePromptCalm(s: Session, k: PromptKey, o: Owner)
    requires SessionSound(s, o)
    ensures CalmStep(s, ClosePrompt(s, k), o)
  {
    if k in s.prompts {
      var t := ClosePrompt(s, k);
      assert t.prompts.Keys == s.prompts.Keys;
      MappedCloseCalm(s, t, o);
    } else {
      CalmSelf(s, o);
    }
  }

  lemma RetireCalm(s: Session, c: Context, o: Owner)
    requires SessionSound(s, o) && RetireChange(s, c).Ok?
    ensures CalmStep(s, RetireChange(s, c).value, o)
  {
    RecordCalm(s, Retire, c, o);
    var s1 := RecordOperation(s, Retire, c).value.0;
    CloseCalm(s1, RetireChange(s, c).value, o);
    CalmTrans(s, s1, RetireChange(s, c).value, o);
  }

  lemma SettleCalm(s: Session, c: Context, o: Owner)
    requires SessionSound(s, o) && c.owner == o && SettleChange(s, c).Ok? && Admissible(Settle, c)
    ensures CalmStep(s, SettleChange(s, c).value, o)
  {
    RecordCalm(s, Settle, c, o);
    OperationRecorded(s, Settle, c);
    var s1 := RecordOperation(s, Settle, c).value.0;
    EnsureCalm(s1, c, o);
    var s2 := EnsurePrompt(s1, c).value;
    CalmTrans(s, s1, s2, o);
    ClosePromptCalm(s2, c.prompt, o);
    CalmTrans(s, s2, SettleChange(s, c).value, o);
  }

  lemma RenewStages(s: Session, c: Context, now: int)
    requires RenewChange(s, c, now).Ok?
    ensures RecordOperation(s, Renew, c).Ok? && EnsurePrompt(RecordOperation(s, Renew, c).value.0, c).Ok?
    ensures var s2 := EnsurePrompt(RecordOperation(s, Renew, c).value.0, c).value;
            var t := RenewChange(s, c, now).value;
            t == s2 || (RenewLease(s2.prompts[c.prompt], c, now).Ok?
                        && t == PutPrompt(s2, c.prompt, RenewLease(s2.prompts[c.prompt], c, now).value))
  {
  }

  lemma RenewCalm(s: Session, c: Context, now: int, o: Owner)
    requires SessionSound(s, o) && c.owner == o && RenewChange(s, c, now).Ok? && Admissible(Renew, c)
    ensures CalmStep(s, RenewChange(s, c, now).value, o)
  {
    RecordCalm(s, Renew, c, o);
    OperationRecorded(s, Renew, c);
    var (s1, duplicate) := RecordOperation(s, Renew, c).value;
    EnsureCalm(s1, c, o);
    var s2 := EnsurePrompt(s1, c).value;
    CalmTrans(s, s1, s2, o);
    if !duplicate {
      LeaseCalm(s2, c.prompt, c, now, o);
      CalmTrans(s, s2, RenewChange(s, c, now).value, o);
    }
  }

  lemma ControlCalm(s: Session, path: Path, c: Context, now: int, o: Owner)
    requires SessionSound(s, o) && c.owner == o && !path.Responses? && Admissible(path, c)
    requires ControlChange(s, path, c, now).Ok?
    ensures CalmStep(s, ControlChange(s, path, c, now).value, o)
  {
    match path
    case Retire => RetireCalm(s, c, o);
    case Settle => SettleCalm(s, c, o);
    case Renew => RenewCalm(s, c, now, o);
  }

  lemma ExpireCalm(s: Session, now: int, o: Owner)
    requires SessionSound(s, o)
    ensures CalmStep(s, ExpirePrompts(s, now), o)
  {
    MappedCloseCalm(s, ExpirePrompts(s, now), o);
  }

  lemma RecoverCalm(s: Session, o: Owner)
    requires SessionSound(s, o)
    ensures CalmStep(s, RecoverPrompts(s), o)
  {
    MappedCloseCalm(s, RecoverPrompts(s), o);
  }

  // ---------------------------------------------------------------------------
  // Admission
  // ---------------------------------------------------------------------------

  /** What one commit of a request does: the record is valid, moves on, and accounts for the world. */
  ghost predicate WorkStep(s: Session, t: Session, o: Owner, w: World) {
    SessionSound(t, o) && SessionAdvances(s, t) && SessionWorld(t, w)
  }

  function ReservedPrompt(p: Prompt, c: Context): Prompt {
    WithInvocation(p, c.sequence, Invocation(c.sequence, c.operationID, c.bodyDigest, Reserved, "", "")).(lastSequence := c.sequence)
  }

  lemma ReservedAdvances(p: Prompt, c: Context)
    requires LastSequenceValid(p) && !p.closing && c.sequence > p.lastSequence
    ensures PromptAdvances(p, ReservedPrompt(p, c)) && c.sequence !in p.invocations
  {
  }

  lemma AdmittedValid(s: Session, c: Context, o: Owner)
    requires SessionValid(s, o) && c.prompt in s.prompts && !s.prompts[c.prompt].settled
    requires c.sequence > s.prompts[c.prompt].lastSequence && c.operationID in s.operations
    ensures SessionValid(PutPrompt(s, c.prompt, ReservedPrompt(s.prompts[c.prompt], c)), o)
  {
    ReservedSound(s, c.prompt, c.sequence, Invocation(c.sequence, c.operationID, c.bodyDigest, Reserved, "", ""), o);
  }

  lemma AdmittedStrong(s: Session, c: Context)
    requires SessionStrong(s) && c.prompt in s.prompts
    requires c.operationID in s.operations && s.operations[c.operationID] == OpDigest(Responses, c)
    ensures SessionStrong(PutPrompt(s, c.prompt, ReservedPrompt(s.prompts[c.prompt], c)))
  {
    var t := PutPrompt(s, c.prompt, ReservedPrompt(s.prompts[c.prompt], c));
    forall l, q | HasInvocation(t, l, q) ensures AdmittedAs(t, t.prompts[l].invocations[q], l, q) {
      if l != c.prompt || q != c.sequence {
        assert HasInvocation(s, l, q);
      }
    }
  }

  lemma AdmittedAdvances(s: Session, c: Context)
    requires c.prompt in s.prompts && LastSequenceValid(s.prompts[c.prompt])
    requires !s.prompts[c.prompt].closing && c.sequence > s.prompts[c.prompt].lastSequence
    ensures SessionAdvances(s, PutPrompt(s, c.prompt, ReservedPrompt(s.prompts[c.prompt], c)))
  {
    var t := PutPrompt(s, c.prompt, ReservedPrompt(s.prompts[c.prompt], c));
    ReservedAdvances(s.prompts[c.prompt], c);
    forall l | l in s.prompts ensures PromptAdvances(s.prompts[l], t.prompts[l]) {
      if l != c.prompt { PromptAdvancesSelf(s.prompts[l]); }
    }
    AdvancesByPrompts(s, t);
  }

  lemma AdmittedProc(s: Session, c: Context, w: World)
    requires c.prompt in s.prompts && s.current == Some(c.prompt) && !s.prompts[c.prompt].settled && !s.retired
    ensures ProcFacts(PutPrompt(s, c.prompt, ReservedPrompt(s.prompts[c.prompt], c)),
                      Proc(c.prompt, c.sequence, c.operationID, Started), w)
  {
  }

  lemma AdmittedWorld(s: Session, c: Context, w: World)
    requires SessionWorld(s, w) && c.prompt in s.prompts && c.sequence !in s.prompts[c.prompt].invocations
    ensures SessionWorld(PutPrompt(s, c.prompt, ReservedPrompt(s.prompts[c.prompt], c)), w)
    ensures InferKey(c.prompt, c.sequence) !in w.infers
  {
    var t := PutPrompt(s, c.prompt, ReservedPrompt(s.prompts[c.prompt], c));
    forall key | key in w.infers ensures InferAccounted(t, key, w.infers[key]) && key != InferKey(c.prompt, c.sequence) {
      assert InferAccounted(s, key, w.infers[key]);
    }
  }

  lemma ReserveStages(s: Session, c: Context, r: Request, normal: bool, now: int)
    requires ReserveChange(s, c, r, normal, now).Ok?
    ensures !s.retiring && !s.retired && RecordOperation(s, Responses, c).Ok? && c.operationID !in s.operations
    ensures var s1 := RecordOperation(s, Responses, c).value.0;
            && EnsurePrompt(s1, c).Ok?
            && var s2 := EnsurePrompt(s1, c).value;
               var p := s2.prompts[c.prompt];
               && !p.closing && !p.settled && p.leaseExpires > now && c.sequence > p.lastSequence
               && c.leaseGeneration == p.leaseGeneration && c.leaseExpires == p.leaseExpires
               && (p.lastSequence != 0 ==> r.previous == p.lastAlias)
               && TranslatePrevious(s2, c.prompt, p.lastSequence == 0, r).Ok?
               && ReserveChange(s, c, r, normal, now).value
                  == (PutPrompt(s2, c.prompt, ReservedPrompt(p, c)), TranslatePrevious(s2, c.prompt, p.lastSequence == 0, r).value)
  {
  }

  lemma ReserveStepSound(s: Session, c: Context, r: Request, normal: bool, now: int, o: Owner, w: World)
    requires SessionSound(s, o) && SessionWorld(s, w) && c.owner == o && Admissible(Responses, c)
    requires ReserveChange(s, c, r, normal, now).Ok?
    ensures var t := ReserveChange(s, c, r, normal, now).value.0;
            WorkStep(s, t, o, w) && ProcFacts(t, Proc(c.prompt, c.sequence, c.operationID, Started), w)
  {
    ReserveStages(s, c, r, normal, now);
    RecordCalm(s, Responses, c, o);
    OperationRecorded(s, Responses, c);
    var s1 := RecordOperation(s, Responses, c).value.0;
    EnsureCalm(s1, c, o);
    var s2 := EnsurePrompt(s1, c).value;
    CalmTrans(s, s1, s2, o);
    SameWorkWorld(s, s2, w);
    AdmissionSound(s2, c, o, w);
    SessionAdvancesTrans(s, s2, PutPrompt(s2, c.prompt, ReservedPrompt(s2.prompts[c.prompt], c)));
  }

  lemma AdmissionSound(s: Session, c: Context, o: Owner, w: World)
    requires SessionSound(s, o) && SessionWorld(s, w) && c.prompt in s.prompts
    requires c.operationID in s.operations && s.operations[c.operationID] == OpDigest(Responses, c)
    requires !s.prompts[c.prompt].closing && !s.prompts[c.prompt].settled && c.sequence > s.prompts[c.prompt].lastSequence
    ensures var t := PutPrompt(s, c.prompt, ReservedPrompt(s.prompts[c.prompt], c));
            WorkStep(s, t, o, w) && ProcFacts(t, Proc(c.prompt, c.sequence, c.operationID, Started), w)
  {
    assert PromptValid(s.prompts[c.prompt], c.prompt, s);
    ReservedAdvances(s.prompts[c.prompt], c);
    AdmittedValid(s, c, o);
    AdmittedStrong(s, c);
    AdmittedAdvances(s, c);
    AdmittedWorld(s, c, w);
    AdmittedProc(s, c, w);
  }
}
