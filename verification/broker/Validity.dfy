/** Every change keeps one owner's record valid, and moves it only forwards. */
module BrokerValidity {
  import opened Wrappers
  import opened BrokerLedger
  import opened BrokerChanges

  // ---------------------------------------------------------------------------
  // What holds of a record beyond the restart checks
  // ---------------------------------------------------------------------------

  ghost predicate AdmittedAs(s: Session, i: Invocation, k: PromptKey, q: nat) {
    && i.operationID in s.operations
    && s.operations[i.operationID].path.Responses?
    && s.operations[i.operationID].context.prompt == k && s.operations[i.operationID].context.sequence == q
  }

  ghost function NonRetireOperations(operations: map<string, OpDigest>): set<string> {
    set id | id in operations && !operations[id].path.Retire?
  }

  ghost predicate DistinctRemotes(responses: map<string, Link>) {
    forall a, b :: a in responses && b in responses && responses[a].remoteID == responses[b].remoteID ==> a == b
  }

  ghost predicate Injective(callIDs: map<string, string>) {
    forall c, d :: c in callIDs && d in callIDs && callIDs[c] == callIDs[d] ==> c == d
  }

  /** No two call aliases of a response stand for the same provider call. */
  ghost predicate CallsInjective(responses: map<string, Link>) {
    forall a :: a in responses ==> Injective(responses[a].callIDs)
  }

  ghost predicate SessionStrong(s: Session) {
    && CallsInjective(s.responses)
    && (s.createState.CreateIntent? ==> s.responses == map[])
    && DistinctRemotes(s.responses)
    && (forall k, q :: HasInvocation(s, k, q) ==> AdmittedAs(s, s.prompts[k].invocations[q], k, q))
    && |NonRetireOperations(s.operations)| <= SETTLEMENT_OPERATION_LIMIT
  }

  ghost predicate SessionSound(s: Session, o: Owner) {
    SessionValid(s, o) && SessionStrong(s)
  }

  // ---------------------------------------------------------------------------
  // Moving forwards
  // ---------------------------------------------------------------------------

  ghost predicate StateAdvances(a: InvocationState, b: InvocationState) {
    a == b || match a
              case Reserved => true
              case Intent => !b.Reserved?
              case Accepted => b.Completed? || b.Finalized?
              case Rejected => b.Finalized?
              case Uncertain | Completed | Finalized => false
  }

  ghost predicate InvocationAdvances(a: Invocation, b: Invocation) {
    && b.(state := a.state, responseID := a.responseID, alias := a.alias) == a
    && StateAdvances(a.state, b.state)
    && (a.responseID != "" ==> b.responseID == a.responseID && b.alias == a.alias)
  }

  ghost predicate PromptAdvances(a: Prompt, b: Prompt) {
    && b.identity == a.identity
    && a.leaseGeneration <= b.leaseGeneration
    && a.leaseExpires <= b.leaseExpires
    && (a.closing ==> b.closing) && (a.settled ==> b.settled && b.proof == a.proof)
    && a.lastSequence <= b.lastSequence
    && (a.closing ==> b.leaseGeneration == a.leaseGeneration && b.lastSequence == a.lastSequence)
    && forall q :: q in a.invocations ==> q in b.invocations && InvocationAdvances(a.invocations[q], b.invocations[q])
  }

  ghost predicate LinkAdvances(a: Link, b: Link) {
    && b.remoteID == a.remoteID && b.prompt == a.prompt && (a.completed ==> b == a)
  }

  ghost predicate Unfinished(s: Session, alias: string) {
    alias in s.responses ==> !s.responses[alias].completed
  }

  /** The latest response of a prompt is replaced only by one that was not complete before. */
  ghost predicate LastAliasAdvances(a: Session, b: Session) {
    forall k :: k in a.prompts && k in b.prompts ==>
                  b.prompts[k].lastAlias == a.prompts[k].lastAlias || Unfinished(a, b.prompts[k].lastAlias)
  }

  ghost predicate SessionAdvances(a: Session, b: Session) {
    && LastAliasAdvances(a, b)
    && b.owner == a.owner
    && (a.retiring ==> b.retiring) && (a.retired ==> b.retired && b.proof == a.proof)
    && (forall id :: id in a.operations ==> id in b.operations && b.operations[id] == a.operations[id])
    && (forall r :: r in a.responses ==> r in b.responses && LinkAdvances(a.responses[r], b.responses[r]))
    && (forall k :: k in a.prompts ==> k in b.prompts && PromptAdvances(a.prompts[k], b.prompts[k]))
  }

  lemma PromptAdvancesSelf(p: Prompt)
    ensures PromptAdvances(p, p)
  {
  }

  lemma AdvancesByPrompts(s: Session, t: Session)
    requires t == s.(prompts := t.prompts)
    requires forall k :: k in s.prompts ==> k in t.prompts && PromptAdvances(s.prompts[k], t.prompts[k])
    requires LastAliasAdvances(s, t)
    ensures SessionAdvances(s, t)
  {
  }

  // ---------------------------------------------------------------------------
  // Building blocks
  // ---------------------------------------------------------------------------

  lemma {:induction false} SubsetSize<T>(a: set<T>, b: set<T>)
    requires a <= b
    ensures |a| <= |b|
  {
    if a != {} {
      var x :| x in a;
      SubsetSize(a - {x}, b - {x});
    }
  }

  lemma PromptFrame(p: Prompt, k: PromptKey, s: Session, t: Session)
    requires PromptValid(p, k, s)
    requires t.owner == s.owner && t.retiring == s.retiring && t.retired == s.retired && t.current == s.current
    requires t.responses == s.responses && s.operations.Keys <= t.operations.Keys
    ensures PromptValid(p, k, t)
  {
    forall q | q in p.invocations ensures InvocationValid(p.invocations[q], q, k, p.settled, t) {
      assert InvocationValid(p.invocations[q], q, k, p.settled, s);
    }
  }

  lemma LinksFrame(s: Session, t: Session)
    requires LinksExact(s) && t.prompts == s.prompts && t.responses == s.responses
    ensures LinksExact(t)
  {
    assert forall k, q, a :: Produced(t, k, q, a) <==> Produced(s, k, q, a);
  }

  lemma OperationCount(s: Session, path: Path, c: Context)
    requires SessionStrong(s) && RecordOperation(s, path, c).Ok?
    ensures |NonRetireOperations(RecordOperation(s, path, c).value.0.operations)| <= SETTLEMENT_OPERATION_LIMIT
  {
    hide DistinctRemotes, CallsInjective, AdmittedAs, HasInvocation;
    var s1 := RecordOperation(s, path, c).value.0;
    var before, after := NonRetireOperations(s.operations), NonRetireOperations(s1.operations);
    if c.operationID !in s.operations {
      if path.Retire? {
        assert after == before;
      } else {
        assert after == before + {c.operationID};
        SubsetSize(before, s.operations.Keys);
      }
    }
  }

  lemma OperationsGrow(s: Session, operations: map<string, OpDigest>, o: Owner)
    requires SessionValid(s, o) && s.operations.Keys <= operations.Keys && |operations| <= RETIREMENT_OPERATION_LIMIT
    ensures SessionValid(s.(operations := operations), o)
  {
    var t := s.(operations := operations);
    forall k | k in t.prompts ensures PromptValid(t.prompts[k], k, t) {
      PromptFrame(s.prompts[k], k, s, t);
    }
    LinksFrame(s, t);
  }

  lemma OperationRecorded(s: Session, path: Path, c: Context)
    requires RecordOperation(s, path, c).Ok?
    ensures var s1 := RecordOperation(s, path, c).value.0;
            && s1 == s.(operations := s1.operations) && s.operations.Keys <= s1.operations.Keys
            && c.operationID in s1.operations && s1.operations[c.operationID] == OpDigest(path, c)
            && (|s.operations| <= RETIREMENT_OPERATION_LIMIT ==> |s1.operations| <= RETIREMENT_OPERATION_LIMIT)
  {
  }

  lemma OperationStrong(s: Session, path: Path, c: Context)
    requires SessionStrong(s) && RecordOperation(s, path, c).Ok?
    ensures SessionStrong(RecordOperation(s, path, c).value.0)
  {
    OperationCount(s, path, c);
  }

  lemma OperationAdvances(s: Session, path: Path, c: Context)
    requires RecordOperation(s, path, c).Ok?
    ensures SessionAdvances(s, RecordOperation(s, path, c).value.0)
  {
    hide Unfinished, OperationLimit;
  }

  ghost predicate SameProducers(s: Session, t: Session) {
    forall k, q, a :: Produced(t, k, q, a) <==> Produced(s, k, q, a)
  }

  lemma LinksSame(s: Session, t: Session)
    requires LinksExact(s) && t.responses == s.responses && SameProducers(s, t)
    ensures LinksExact(t)
  {
    forall a | a in t.responses ensures exists q :: Produced(t, t.responses[a].prompt, q, a) {
      var q :| Produced(s, s.responses[a].prompt, q, a);
      assert Produced(t, s.responses[a].prompt, q, a);
    }
  }

  /** Replacing one prompt by a valid one that produced the same responses. */
  lemma PromptReplaced(s: Session, k: PromptKey, p: Prompt, o: Owner)
    requires SessionValid(s, o) && k in s.prompts && PromptValid(p, k, s)
    requires SameProducers(s, PutPrompt(s, k, p))
    ensures SessionValid(PutPrompt(s, k, p), o)
  {
    hide PromptValid, PromptIdentityValid, SessionShapeValid, LinksExact, LinkValid, PromptClosureValid, LatestCompleted, LastAliasValid, LastSequenceValid, InvocationValid;
    var t := PutPrompt(s, k, p);
    assert t.prompts.Keys == s.prompts.Keys;
    ClosingShape(s, t, o);
    forall j | j in t.prompts ensures PromptValid(t.prompts[j], j, t) {
      PromptFrame(t.prompts[j], j, s, t);
    }
    LinksSame(s, t);
  }

  // ---------------------------------------------------------------------------
  // Closing prompts
  // ---------------------------------------------------------------------------

  ghost predicate Closes(p: Prompt, p1: Prompt) {
    p1 == p || p1 == p.(closing := true)
  }

  ghost predicate OnlyCloses(s: Session, t: Session) {
    && t == s.(prompts := t.prompts, retiring := t.retiring)
    && (s.retiring ==> t.retiring)
    && t.prompts.Keys == s.prompts.Keys
    && forall k :: k in s.prompts ==> Closes(s.prompts[k], t.prompts[k])
  }

  lemma PromptClosed(p: Prompt, p1: Prompt, k: PromptKey, s: Session, t: Session)
    requires PromptValid(p, k, s) && Closes(p, p1)
    requires t == s.(prompts := t.prompts, retiring := t.retiring) && (t.retiring ==> p1.closing)
    ensures PromptValid(p1, k, t)
  {
    forall q | q in p1.invocations ensures InvocationValid(p1.invocations[q], q, k, p1.settled, t) {
      assert InvocationValid(p.invocations[q], q, k, p.settled, s);
    }
    if exists q :: q in p.invocations && p.invocations[q].state.Completed? {
      var q :| LatestCompleted(p, q) && p.lastAlias == p.invocations[q].alias;
      assert LatestCompleted(p1, q);
    }
  }

  lemma ClosingProducers(s: Session, t: Session)
    requires OnlyCloses(s, t)
    ensures SameProducers(s, t)
  {
    forall k | k in s.prompts ensures t.prompts[k].invocations == s.prompts[k].invocations {
      assert Closes(s.prompts[k], t.prompts[k]);
    }
  }

  lemma ClosingShape(s: Session, t: Session, o: Owner)
    requires SessionShapeValid(s, o) && t == s.(prompts := t.prompts, retiring := t.retiring)
    requires (s.retiring ==> t.retiring) && t.prompts.Keys == s.prompts.Keys
    ensures SessionShapeValid(t, o)
  {
    assert |t.prompts| == |t.prompts.Keys| == |s.prompts|;
  }

  lemma ClosingValid(s: Session, t: Session, o: Owner)
    requires SessionValid(s, o) && OnlyCloses(s, t)
    requires t.retiring ==> forall k :: k in t.prompts ==> t.prompts[k].closing
    ensures SessionValid(t, o)
  {
    ClosingShape(s, t, o);
    forall k | k in t.prompts ensures PromptValid(t.prompts[k], k, t) {
      PromptClosed(s.prompts[k], t.prompts[k], k, s, t);
    }
    ClosingProducers(s, t);
    LinksSame(s, t);
  }

  lemma ClosingStrong(s: Session, t: Session)
    requires SessionStrong(s) && OnlyCloses(s, t)
    ensures SessionStrong(t)
  {
    forall k, q | HasInvocation(t, k, q) ensures AdmittedAs(t, t.prompts[k].invocations[q], k, q) {
      assert HasInvocation(s, k, q);
    }
  }

  lemma ClosingAdvances(s: Session, t: Session)
    requires OnlyCloses(s, t)
    ensures SessionAdvances(s, t)
  {
    forall k | k in s.prompts ensures PromptAdvances(s.prompts[k], t.prompts[k]) {
    }
  }

  // ---------------------------------------------------------------------------
  // One prompt's lease and invocations
  // ---------------------------------------------------------------------------

  lemma NewPromptValid(c: Context, t: Session, o: Owner)
    requires t.owner == o == c.owner && c.operationID in t.operations && t.current == Some(c.prompt)
    requires 0 < c.leaseGeneration <= MAX_UINT64 && c.prompt.taskAttempt > 0 && !t.retired && !t.retiring
    ensures PromptValid(NewPrompt(c), c.prompt, t)
  {
  }

  lemma SettledFrame(p: Prompt, k: PromptKey, s: Session, t: Session)
    requires PromptValid(p, k, s) && (p.settled || s.current != Some(k))
    requires t == s.(prompts := t.prompts, current := t.current)
    ensures PromptValid(p, k, t)
  {
    forall q | q in p.invocations ensures InvocationValid(p.invocations[q], q, k, p.settled, t) {
      assert InvocationValid(p.invocations[q], q, k, p.settled, s);
    }
  }

  lemma AddedShape(s: Session, c: Context, o: Owner)
    requires SessionShapeValid(s, o) && c.prompt !in s.prompts && |s.prompts| < MAX_PROMPTS
    ensures SessionShapeValid(AddPrompt(s, c), o)
  {
    assert |AddPrompt(s, c).prompts| == |s.prompts| + 1;
  }

  lemma AddedProducers(s: Session, c: Context)
    requires c.prompt !in s.prompts
    ensures SameProducers(s, AddPrompt(s, c))
  {
  }

  lemma PromptAdded(s: Session, c: Context, o: Owner)
    requires SessionValid(s, o) && c.owner == o && c.operationID in s.operations
    requires 0 < c.leaseGeneration <= MAX_UINT64 && c.prompt.taskAttempt > 0
    requires c.prompt !in s.prompts && !s.retiring && !s.retired && |s.prompts| < MAX_PROMPTS
    requires forall k :: k in s.prompts ==> s.prompts[k].settled
    ensures SessionValid(AddPrompt(s, c), o)
  {
    var t := AddPrompt(s, c);
    AddedShape(s, c, o);
    NewPromptValid(c, t, o);
    forall k | k in t.prompts ensures PromptValid(t.prompts[k], k, t) {
      if k != c.prompt {
        SettledFrame(s.prompts[k], k, s, t);
      }
    }
    AddedProducers(s, c);
    LinksSame(s, t);
  }

  /** Only the current prompt of a valid record can be unsettled. */
  lemma UnsettledIsCurrent(s: Session, o: Owner, k: PromptKey)
    requires SessionValid(s, o) && k in s.prompts && !s.prompts[k].settled
    ensures s.current == Some(k)
  {
    assert PromptValid(s.prompts[k], k, s);
  }

  lemma PromptEnsured(s: Session, c: Context, o: Owner)
    requires SessionValid(s, o) && c.owner == o && c.operationID in s.operations
    requires 0 < c.leaseGeneration <= MAX_UINT64 && c.prompt.taskAttempt > 0
    requires EnsurePrompt(s, c).Ok?
    ensures SessionValid(EnsurePrompt(s, c).value, o)
  {
    if c.prompt !in s.prompts {
      forall k | k in s.prompts ensures s.prompts[k].settled {
        if !s.prompts[k].settled {
          UnsettledIsCurrent(s, o, k);
        }
      }
      PromptAdded(s, c, o);
    }
  }

  lemma EnsureStrong(s: Session, c: Context)
    requires SessionStrong(s) && EnsurePrompt(s, c).Ok?
    ensures SessionStrong(EnsurePrompt(s, c).value)
  {
    var t := EnsurePrompt(s, c).value;
    forall k, q | HasInvocation(t, k, q) ensures AdmittedAs(t, t.prompts[k].invocations[q], k, q) {
      assert HasInvocation(s, k, q);
    }
  }

  lemma EnsureAdvances(s: Session, c: Context)
    requires EnsurePrompt(s, c).Ok?
    ensures SessionAdvances(s, EnsurePrompt(s, c).value)
  {
    hide NewPrompt, Unfinished, IdentityClash;
  }

  lemma LeaseValid(p: Prompt, c: Context, now: int, k: PromptKey, s: Session)
    requires PromptValid(p, k, s) && RenewLease(p, c, now).Ok? && 0 < c.leaseGeneration <= MAX_UINT64
    ensures PromptValid(RenewLease(p, c, now).value, k, s)
  {
    var p1 := RenewLease(p, c, now).value;
    if exists q :: q in p.invocations && p.invocations[q].state.Completed? {
      var q :| LatestCompleted(p, q) && p.lastAlias == p.invocations[q].alias;
      assert LatestCompleted(p1, q);
    }
  }

  /** The latest completion does not depend on an invocation that is not and was not completed. */
  lemma LastAliasFrame(p: Prompt, q: nat, i: Invocation)
    requires LastAliasValid(p) && !i.state.Completed?
    requires q in p.invocations ==> !p.invocations[q].state.Completed?
    ensures LastAliasValid(WithInvocation(p, q, i))
  {
    var p1 := WithInvocation(p, q, i);
    if exists r :: r in p.invocations && p.invocations[r].state.Completed? {
      var r :| LatestCompleted(p, r) && p.lastAlias == p.invocations[r].alias;
      assert LatestCompleted(p1, r);
    }
  }

  lemma ReservedValid(p: Prompt, q: nat, i: Invocation, k: PromptKey, s: Session)
    requires PromptValid(p, k, s) && !p.settled && q > p.lastSequence
    requires i.sequence == q && i.operationID in s.operations && i.state.Reserved? && i.responseID == "" && i.alias == ""
    ensures PromptValid(WithInvocation(p, q, i).(lastSequence := q), k, s)
  {
    var p1 := WithInvocation(p, q, i).(lastSequence := q);
    assert forall r :: r in p.invocations ==> r <= p.lastSequence;
    LastAliasFrame(p, q, i);
    assert LastAliasValid(p1);
    forall r | r in p1.invocations ensures InvocationValid(p1.invocations[r], r, k, p1.settled, s) {
      assert r != q ==> InvocationValid(p.invocations[r], r, k, p.settled, s);
    }
  }

  ghost predicate Unaccepted(state: InvocationState) {
    state.Reserved? || state.Intent? || state.Rejected? || state.Uncertain?
  }

  lemma StateValid(p: Prompt, q: nat, state: InvocationState, k: PromptKey, s: Session)
    requires PromptValid(p, k, s) && q in p.invocations
    requires Unaccepted(p.invocations[q].state) && Unaccepted(state)
    ensures PromptValid(WithInvocation(p, q, p.invocations[q].(state := state)), k, s)
  {
    var i := p.invocations[q].(state := state);
    var p1 := WithInvocation(p, q, i);
    LastAliasFrame(p, q, i);
    forall r | r in p1.invocations ensures InvocationValid(p1.invocations[r], r, k, p1.settled, s) {
      assert InvocationValid(p.invocations[r], r, k, p.settled, s);
    }
  }

  lemma WithoutProducts(s: Session, k: PromptKey, q: nat, p: Prompt)
    requires k in s.prompts && q in p.invocations && p.invocations[q].responseID == ""
    requires q in s.prompts[k].invocations ==> s.prompts[k].invocations[q].responseID == ""
    requires p.invocations == s.prompts[k].invocations[q := p.invocations[q]]
    ensures SameProducers(s, PutPrompt(s, k, p))
  {
  }

  lemma ReservedSound(s: Session, k: PromptKey, q: nat, i: Invocation, o: Owner)
    requires SessionValid(s, o) && k in s.prompts && !s.prompts[k].settled && q > s.prompts[k].lastSequence
    requires i.sequence == q && i.operationID in s.operations && i.state.Reserved? && i.responseID == "" && i.alias == ""
    ensures SessionValid(PutPrompt(s, k, WithInvocation(s.prompts[k], q, i).(lastSequence := q)), o)
  {
    var p := s.prompts[k];
    assert PromptValid(p, k, s);
    ReservedValid(p, q, i, k, s);
    assert q !in p.invocations;
    WithoutProducts(s, k, q, WithInvocation(p, q, i).(lastSequence := q));
    PromptReplaced(s, k, WithInvocation(p, q, i).(lastSequence := q), o);
  }

  lemma StateSound(s: Session, k: PromptKey, q: nat, state: InvocationState, o: Owner)
    requires SessionValid(s, o) && HasInvocation(s, k, q)
    requires Unaccepted(s.prompts[k].invocations[q].state) && Unaccepted(state)
    ensures SessionValid(PutState(s, k, q, state), o)
  {
    var p := s.prompts[k];
    assert PromptValid(p, k, s);
    assert InvocationValid(p.invocations[q], q, k, p.settled, s);
    StateValid(p, q, state, k, s);
    WithoutProducts(s, k, q, WithInvocation(p, q, p.invocations[q].(state := state)));
    PromptReplaced(s, k, WithInvocation(p, q, p.invocations[q].(state := state)), o);
  }

  lemma InvocationPutStrong(s: Session, k: PromptKey, q: nat, i: Invocation)
    requires SessionStrong(s) && k in s.prompts && AdmittedAs(s, i, k, q)
    ensures SessionStrong(PutInvocation(s, k, q, i))
  {
    var t := PutInvocation(s, k, q, i);
    forall l, r | HasInvocation(t, l, r) ensures AdmittedAs(t, t.prompts[l].invocations[r], l, r) {
      assert (l, r) != (k, q) ==> HasInvocation(s, l, r);
    }
  }

  lemma InvocationPutAdvances(s: Session, k: PromptKey, q: nat, i: Invocation)
    requires HasInvocation(s, k, q) && InvocationAdvances(s.prompts[k].invocations[q], i)
    ensures SessionAdvances(s, PutInvocation(s, k, q, i))
  {
    var t := PutInvocation(s, k, q, i);
    forall l | l in s.prompts ensures PromptAdvances(s.prompts[l], t.prompts[l]) {
      PromptAdvancesSelf(s.prompts[l]);
    }
    AdvancesByPrompts(s, t);
  }
}
