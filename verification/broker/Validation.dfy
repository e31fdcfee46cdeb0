/** The restart check as the broker makes it: loops over prompts and invocations that link responses. */
module BrokerValidation {
  import opened Wrappers
  import opened Text
  import opened BrokerLedger

  ghost predicate InvocationAccepted(i: Invocation, q: nat, k: PromptKey, settled: bool, s: Session) {
    && InvocationValid(i, q, k, settled, s)
    && DigestValid(i.bodyDigest)
    && (i.responseID != "" ==> LinkTexts(i.alias, s.responses[i.alias]) && LinkClean(s.responses[i.alias]))
  }

  ghost predicate PromptAccepted(p: Prompt, k: PromptKey, s: Session) {
    && PromptHeadAccepted(p, k, s)
    && (forall q :: q in p.invocations ==> InvocationAccepted(p.invocations[q], q, k, p.settled, s))
    && LastSequenceValid(p) && LastAliasValid(p)
  }

  ghost predicate PromptHeadAccepted(p: Prompt, k: PromptKey, s: Session) {
    && PromptIdentityValid(p, k, s) && PromptClosureValid(p, k, s) && p.leaseExpires != ZERO_TIME
    && SafeString(k.taskUID, MAX_FIELD_BYTES) && SafeString(k.promptID, MAX_FIELD_BYTES)
    && DigestValid(k.requestDigest) && DigestValid(p.identity.bodyDigest)
  }

  ghost predicate SessionHeadAccepted(s: Session, o: Owner) {
    && SessionShapeValid(s, o) && OwnerValid(s.owner)
    && (s.remoteID != "" ==> UuidValid(s.remoteID))
    && (forall id :: id in s.operations ==> SafeString(id, MAX_FIELD_BYTES))
  }

  /** The record check, arranged as the loops make it. */
  lemma SessionAcceptedParts(s: Session, o: Owner)
    ensures SessionAccepted(s, o) <==>
              SessionHeadAccepted(s, o) && (forall k :: k in s.prompts ==> PromptAccepted(s.prompts[k], k, s)) && LinksExact(s)
  {
    hide PromptAccepted, PromptValid, PromptTexts, LinkTexts, LinkClean, LinksExact, SessionShapeValid;
    forall k | k in s.prompts && SessionAccepted(s, o) ensures PromptAccepted(s.prompts[k], k, s) {
      AcceptedPromptParts(s, o, k);
    }
    if SessionHeadAccepted(s, o) && (forall k :: k in s.prompts ==> PromptAccepted(s.prompts[k], k, s)) && LinksExact(s) {
      forall k | k in s.prompts ensures PromptValid(s.prompts[k], k, s) && PromptTexts(s.prompts[k], k) && s.prompts[k].leaseExpires != ZERO_TIME {
        PromptFromParts(s, k);
      }
      forall a | a in s.responses ensures LinkTexts(a, s.responses[a]) && LinkClean(s.responses[a]) {
        LinkFromParts(s, a);
      }
    }
  }

  lemma PromptFromParts(s: Session, k: PromptKey)
    requires k in s.prompts && PromptAccepted(s.prompts[k], k, s)
    ensures PromptValid(s.prompts[k], k, s) && PromptTexts(s.prompts[k], k) && s.prompts[k].leaseExpires != ZERO_TIME
  {
  }

  lemma LinkFromParts(s: Session, a: string)
    requires LinksExact(s) && a in s.responses && forall k :: k in s.prompts ==> PromptAccepted(s.prompts[k], k, s)
    ensures LinkTexts(a, s.responses[a]) && LinkClean(s.responses[a])
  {
    var q :| Produced(s, s.responses[a].prompt, q, a);
    assert PromptAccepted(s.prompts[s.responses[a].prompt], s.responses[a].prompt, s);
  }

  lemma AcceptedPromptParts(s: Session, o: Owner, k: PromptKey)
    requires SessionAccepted(s, o) && k in s.prompts
    ensures PromptAccepted(s.prompts[k], k, s)
  {
    assert PromptValid(s.prompts[k], k, s) && PromptTexts(s.prompts[k], k);
    forall q | q in s.prompts[k].invocations ensures InvocationAccepted(s.prompts[k].invocations[q], q, k, s.prompts[k].settled, s) {
      assert InvocationValid(s.prompts[k].invocations[q], q, k, s.prompts[k].settled, s);
    }
  }

  // ---------------------------------------------------------------------------
  // Invocations
  // ---------------------------------------------------------------------------

  method LinkAccepted(link: Link, k: PromptKey, i: Invocation) returns (ok: bool)
    ensures ok <==> LinkValid(link, k, i) && LinkTexts(i.alias, link) && LinkClean(link)
  {
    if !AliasValid(i.alias, RESPONSE_PREFIX) || !IdentifierValid(link.remoteID) || link.remoteID != i.responseID
       || link.prompt != k || link.completed != i.state.Completed?
       || link.hasFunctions != (|link.callIDs| > 0) || (!link.completed && |link.callIDs| != 0) {
      return false;
    }
    var rest := link.callIDs.Keys;
    while rest != {}
      invariant rest <= link.callIDs.Keys
      invariant forall c :: c in link.callIDs && c !in rest ==> AliasValid(c, CALL_PREFIX) && IdentifierValid(link.callIDs[c])
    {
      var c :| c in rest;
      if !AliasValid(c, CALL_PREFIX) || !IdentifierValid(link.callIDs[c]) {
        return false;
      }
      rest := rest - {c};
    }
    return true;
  }

  /** One invocation; a response that it links is added to those linked before, and may not be among them. */
  method CheckInvocation(i: Invocation, q: nat, k: PromptKey, settled: bool, s: Session, linked: set<string>)
    returns (ok: bool, linked1: set<string>)
    ensures ok <==> InvocationAccepted(i, q, k, settled, s) && (i.responseID != "" ==> i.alias !in linked)
    ensures ok ==> linked1 == linked + (if i.responseID != "" then {i.alias} else {})
  {
    linked1 := linked;
    if i.sequence != q || q == 0 || !DigestValid(i.bodyDigest) || i.operationID !in s.operations {
      return false, linked;
    }
    match i.state {
      case Reserved | Intent | Rejected | Uncertain =>
        if i.responseID != "" || i.alias != "" || settled { return false, linked; }
      case Accepted | Completed =>
        if i.responseID == "" || (settled && !i.state.Completed?) { return false, linked; }
      case Finalized =>
        if !settled { return false, linked; }
    }
    if i.responseID == "" {
      return i.alias == "", linked;
    }
    if i.alias !in s.responses || i.alias in linked {
      return false, linked;
    }
    ok := LinkAccepted(s.responses[i.alias], k, i);
    linked1 := linked + {i.alias};
  }

  // ---------------------------------------------------------------------------
  // Prompts
  // ---------------------------------------------------------------------------

  /** Responses produced by the invocations `qs` of prompt `k`. */
  ghost function ProducedBy(p: Prompt, qs: set<nat>): set<string> {
    set q | q in qs && q in p.invocations && p.invocations[q].responseID != "" :: p.invocations[q].alias
  }

  /** No two of the invocations `qs` produced the same response. */
  ghost predicate ProducedOnce(p: Prompt, qs: set<nat>) {
    forall q, r ::
      (&& q in qs && r in qs && q in p.invocations && r in p.invocations
       && p.invocations[q].responseID != "" && p.invocations[r].responseID != ""
       && p.invocations[q].alias == p.invocations[r].alias) ==> q == r
  }

  ghost predicate PromptLinks(p: Prompt, linked: set<string>) {
    ProducedOnce(p, p.invocations.Keys) && ProducedBy(p, p.invocations.Keys) !! linked
  }

  lemma ProducedMore(p: Prompt, qs: set<nat>, q: nat)
    requires q in p.invocations && q !in qs
    ensures ProducedBy(p, qs + {q}) == ProducedBy(p, qs) + (if p.invocations[q].responseID != "" then {p.invocations[q].alias} else {})
    ensures ProducedOnce(p, qs + {q}) <==> ProducedOnce(p, qs) && (p.invocations[q].responseID != "" ==> p.invocations[q].alias !in ProducedBy(p, qs))
  {
    if ProducedOnce(p, qs + {q}) && p.invocations[q].responseID != "" {
      forall r | r in qs && r in p.invocations && p.invocations[r].responseID != ""
        ensures p.invocations[r].alias != p.invocations[q].alias
      {
      }
    }
  }

  lemma ProducedFewer(p: Prompt, qs: set<nat>, linked: set<string>)
    requires qs <= p.invocations.Keys && PromptLinks(p, linked)
    ensures ProducedOnce(p, qs) && ProducedBy(p, qs) !! linked
  {
    assert ProducedBy(p, qs) <= ProducedBy(p, p.invocations.Keys);
  }

  /** The running maximum and the alias of the latest completion, over the invocations `qs`. */
  ghost predicate Running(p: Prompt, qs: set<nat>, last: nat, lastCompleted: nat, lastAlias: string)
    requires qs <= p.invocations.Keys
  {
    && (if qs == {} then last == 0 else last in qs && forall q :: q in qs ==> q <= last)
    && if lastCompleted == 0 then lastAlias == "" && forall q :: q in qs ==> !p.invocations[q].state.Completed?
       else && lastCompleted in qs && p.invocations[lastCompleted].state.Completed?
            && lastAlias == p.invocations[lastCompleted].alias
            && forall q :: q in qs && p.invocations[q].state.Completed? ==> q <= lastCompleted
  }

  lemma RunningMore(p: Prompt, qs: set<nat>, last: nat, lastCompleted: nat, lastAlias: string, q: nat)
    requires qs <= p.invocations.Keys && q in p.invocations && q > 0 && Running(p, qs, last, lastCompleted, lastAlias)
    ensures var latest := p.invocations[q].state.Completed? && q > lastCompleted;
            Running(p, qs + {q}, if q > last then q else last, if latest then q else lastCompleted,
                    if latest then p.invocations[q].alias else lastAlias)
  {
  }

  lemma RunningAll(p: Prompt, last: nat, lastCompleted: nat, lastAlias: string)
    requires Running(p, p.invocations.Keys, last, lastCompleted, lastAlias)
    ensures LastSequenceValid(p) <==> p.lastSequence == last
    ensures LastAliasValid(p) <==> p.lastAlias == lastAlias
  {
    assert p.invocations.Keys == {} <==> p.invocations == map[];
    if lastCompleted != 0 {
      assert LatestCompleted(p, lastCompleted);
      forall q | LatestCompleted(p, q) ensures q == lastCompleted {
      }
    }
  }

  method CheckPromptHead(p: Prompt, k: PromptKey, s: Session) returns (ok: bool)
    ensures ok <==> PromptHeadAccepted(p, k, s)
  {
    if p.identity.prompt != k || p.identity.owner != s.owner || !SafeString(k.taskUID, MAX_FIELD_BYTES) || k.taskAttempt == 0
       || !SafeString(k.promptID, MAX_FIELD_BYTES) || !DigestValid(k.requestDigest) || !DigestValid(p.identity.bodyDigest)
       || p.identity.operationID !in s.operations
       || p.identity.leaseGeneration == 0 || p.leaseGeneration < p.identity.leaseGeneration || p.leaseGeneration > MAX_UINT64
       || p.leaseExpires < p.identity.leaseExpires || p.leaseExpires == ZERO_TIME {
      return false;
    }
    if p.settled {
      if !p.closing || p.proof.None? { return false; }
    } else if p.proof.Some? || s.retired || s.current != Some(k) {
      return false;
    }
    return !s.retiring || p.closing;
  }

  lemma NothingYet(p: Prompt)
    ensures ProducedBy(p, {}) == {} && ProducedOnce(p, {}) && Running(p, {}, 0, 0, "")
  {
  }

  lemma AcceptedPositive(i: Invocation, q: nat, k: PromptKey, settled: bool, s: Session)
    requires InvocationAccepted(i, q, k, settled, s)
    ensures q > 0
  {
  }

  method CheckPrompt(p: Prompt, k: PromptKey, s: Session, linked: set<string>) returns (ok: bool, linked1: set<string>)
    ensures ok <==> PromptAccepted(p, k, s) && PromptLinks(p, linked)
    ensures ok ==> linked1 == linked + ProducedBy(p, p.invocations.Keys)
  {
    hide InvocationAccepted, PromptHeadAccepted, ProducedBy, ProducedOnce, Running, LastSequenceValid, LastAliasValid;
    linked1 := linked;
    NothingYet(p);
    ok := CheckPromptHead(p, k, s);
    if !ok {
      return false, linked;
    }
    var last, lastCompleted, lastAlias := 0, 0, "";
    var rest := p.invocations.Keys;
    ghost var seen: set<nat> := {};
    while rest != {}
      invariant rest <= p.invocations.Keys && seen == p.invocations.Keys - rest
      invariant forall q :: q in seen ==> InvocationAccepted(p.invocations[q], q, k, p.settled, s)
      invariant linked1 == linked + ProducedBy(p, seen) && ProducedOnce(p, seen) && ProducedBy(p, seen) !! linked
      invariant Running(p, seen, last, lastCompleted, lastAlias)
    {
      var q :| q in rest;
      var i := p.invocations[q];
      var accepted, more := CheckInvocation(i, q, k, p.settled, s, linked1);
      ProducedMore(p, seen, q);
      if !accepted {
        if PromptLinks(p, linked) { ProducedFewer(p, seen + {q}, linked); }
        return false, linked;
      }
      AcceptedPositive(i, q, k, p.settled, s);
      RunningMore(p, seen, last, lastCompleted, lastAlias, q);
      linked1 := more;
      if q > last {
        last := q;
      }
      if i.state.Completed? && q > lastCompleted {
        lastCompleted, lastAlias := q, i.alias;
      }
      seen := seen + {q};
      rest := rest - {q};
    }
    assert seen == p.invocations.Keys;
    RunningAll(p, last, lastCompleted, lastAlias);
    return p.lastSequence == last && p.lastAlias == lastAlias, linked1;
  }

  // ---------------------------------------------------------------------------
  // Records
  // ---------------------------------------------------------------------------

  ghost function ProducedIn(s: Session, ks: set<PromptKey>): set<string> {
    set k, q: nat | k in ks && k in s.prompts && q in s.prompts[k].invocations && s.prompts[k].invocations[q].responseID != ""
      :: s.prompts[k].invocations[q].alias
  }

  lemma ProducedPrompt(s: Session, ks: set<PromptKey>, k: PromptKey)
    requires k in s.prompts
    ensures ProducedIn(s, ks + {k}) == ProducedIn(s, ks) + ProducedBy(s.prompts[k], s.prompts[k].invocations.Keys)
  {
  }

  /** Responses linked to accepted prompts are known, and belong to the prompt that links them. */
  lemma LinkedKnown(s: Session, ks: set<PromptKey>)
    requires forall k :: k in ks ==> k in s.prompts && PromptAccepted(s.prompts[k], k, s)
    ensures ProducedIn(s, ks) <= s.responses.Keys
  {
    forall k, q: nat | k in ks && q in s.prompts[k].invocations && s.prompts[k].invocations[q].responseID != ""
      ensures s.prompts[k].invocations[q].alias in s.responses
    {
      assert PromptAccepted(s.prompts[k], k, s);
    }
  }

  lemma {:induction false} SameCount(a: set<string>, b: set<string>)
    requires a <= b
    ensures |a| <= |b| && (|a| == |b| <==> a == b)
  {
    if a != {} {
      var x :| x in a;
      SameCount(a - {x}, b - {x});
    }
  }

  /** Linking as many responses as there are is linking each of them, once. */
  lemma LinkedExactly(s: Session)
    requires forall k :: k in s.prompts ==> PromptAccepted(s.prompts[k], k, s) && ProducedOnce(s.prompts[k], s.prompts[k].invocations.Keys)
    ensures |ProducedIn(s, s.prompts.Keys)| == |s.responses| <==> LinksExact(s)
  {
    hide PromptHeadAccepted, DigestValid, LastAliasValid, LinkTexts;
    var linked := ProducedIn(s, s.prompts.Keys);
    LinkedKnown(s, s.prompts.Keys);
    SameCount(linked, s.responses.Keys);
    assert |s.responses.Keys| == |s.responses|;
    forall a, k, q, r | Produced(s, k, q, a) && Produced(s, k, r, a) ensures q == r {
      assert ProducedOnce(s.prompts[k], s.prompts[k].invocations.Keys);
    }
    if linked == s.responses.Keys {
      forall a | a in s.responses ensures exists q :: Produced(s, s.responses[a].prompt, q, a) {
        var k, q: nat :| k in s.prompts && q in s.prompts[k].invocations && s.prompts[k].invocations[q].responseID != ""
                         && s.prompts[k].invocations[q].alias == a;
        assert PromptAccepted(s.prompts[k], k, s);
        assert Produced(s, s.responses[a].prompt, q, a);
      }
    }
    if LinksExact(s) {
      forall a | a in s.responses ensures a in linked {
        var q :| Produced(s, s.responses[a].prompt, q, a);
      }
    }
  }

  method CheckSessionHead(s: Session, o: Owner) returns (ok: bool)
    ensures ok <==> SessionHeadAccepted(s, o)
  {
    if !OwnerValid(s.owner) || s.owner != o || |s.prompts| > MAX_PROMPTS || |s.operations| > RETIREMENT_OPERATION_LIMIT {
      return false;
    }
    match s.createState {
      case NotCreated => if s.remoteID != "" || |s.responses| != 0 { return false; }
      case CreateIntent | Known | Deleted => if s.remoteID == "" || !UuidValid(s.remoteID) { return false; }
    }
    if s.retired {
      if !s.retiring || (!s.createState.NotCreated? && !s.createState.Deleted?) || s.proof.None? { return false; }
    } else if s.createState.Deleted? || s.proof.Some? {
      return false;
    }
    if (|s.prompts| == 0) != s.current.None? || (s.current.Some? && s.current.value !in s.prompts) {
      return false;
    }
    var rest := s.operations.Keys;
    while rest != {}
      invariant rest <= s.operations.Keys
      invariant forall id :: id in s.operations && id !in rest ==> SafeString(id, MAX_FIELD_BYTES)
    {
      var id :| id in rest;
      if !SafeString(id, MAX_FIELD_BYTES) {
        return false;
      }
      rest := rest - {id};
    }
    return true;
  }

  /** Two prompts of a valid record never link the same response. */
  lemma PromptsApart(s: Session, ks: set<PromptKey>, k: PromptKey)
    requires forall j :: j in ks ==> j in s.prompts && PromptAccepted(s.prompts[j], j, s)
    requires k in s.prompts && k !in ks && PromptAccepted(s.prompts[k], k, s)
    ensures ProducedBy(s.prompts[k], s.prompts[k].invocations.Keys) !! ProducedIn(s, ks)
  {
    forall j, q: nat, r: nat |
      j in ks && q in s.prompts[j].invocations && s.prompts[j].invocations[q].responseID != ""
      && r in s.prompts[k].invocations && s.prompts[k].invocations[r].responseID != ""
      ensures s.prompts[j].invocations[q].alias != s.prompts[k].invocations[r].alias
    {
      assert PromptAccepted(s.prompts[j], j, s);
      assert InvocationAccepted(s.prompts[j].invocations[q], q, j, s.prompts[j].settled, s);
      assert InvocationAccepted(s.prompts[k].invocations[r], r, k, s.prompts[k].settled, s);
    }
  }

  lemma ExactOnce(s: Session, k: PromptKey)
    requires LinksExact(s) && k in s.prompts
    ensures ProducedOnce(s.prompts[k], s.prompts[k].invocations.Keys)
  {
    forall q, r | q in s.prompts[k].invocations && r in s.prompts[k].invocations
                  && s.prompts[k].invocations[q].responseID != "" && s.prompts[k].invocations[r].responseID != ""
                  && s.prompts[k].invocations[q].alias == s.prompts[k].invocations[r].alias
      ensures q == r
    {
      assert Produced(s, k, q, s.prompts[k].invocations[q].alias) && Produced(s, k, r, s.prompts[k].invocations[q].alias);
    }
  }

  lemma NoneLinked(s: Session)
    ensures ProducedIn(s, {}) == {}
  {
  }

  method CheckSession(s: Session, o: Owner) returns (ok: bool)
    ensures ok <==> SessionAccepted(s, o)
  {
    hide PromptAccepted, SessionHeadAccepted, SessionAccepted, ProducedIn, ProducedBy, ProducedOnce, LinksExact;
    SessionAcceptedParts(s, o);
    NoneLinked(s);
    ok := CheckSessionHead(s, o);
    if !ok {
      return false;
    }
    var linked: set<string> := {};
    var rest := s.prompts.Keys;
    ghost var seen: set<PromptKey> := {};
    while rest != {}
      invariant rest <= s.prompts.Keys && seen == s.prompts.Keys - rest
      invariant forall k :: k in seen ==> PromptAccepted(s.prompts[k], k, s) && ProducedOnce(s.prompts[k], s.prompts[k].invocations.Keys)
      invariant linked == ProducedIn(s, seen)
    {
      var k :| k in rest;
      var accepted, more := CheckPrompt(s.prompts[k], k, s, linked);
      if PromptAccepted(s.prompts[k], k, s) { PromptsApart(s, seen, k); }
      if !accepted {
        if LinksExact(s) { ExactOnce(s, k); }
        return false;
      }
      ProducedPrompt(s, seen, k);
      linked := more;
      seen := seen + {k};
      rest := rest - {k};
    }
    assert seen == s.prompts.Keys;
    LinkedExactly(s);
    return |linked| == |s.responses|;
  }

  /** The check a restart makes of the whole ledger. */
  method CheckLedger(l: Ledger, configDigest: string) returns (ok: bool)
    ensures ok <==> LedgerValid(l, configDigest)
  {
    if l.configDigest != configDigest || |l.sessions| > MAX_OWNERS || (l.principal != "" && !DigestValid(l.principal)) {
      return false;
    }
    var rest := l.sessions.Keys;
    while rest != {}
      invariant rest <= l.sessions.Keys
      invariant forall o :: o in l.sessions && o !in rest ==>
                  SessionAccepted(l.sessions[o], o) && (l.sessions[o].remoteID != "" ==> l.principal != "")
    {
      var o :| o in rest;
      var accepted := CheckSession(l.sessions[o], o);
      if !accepted || (l.sessions[o].remoteID != "" && l.principal == "") {
        return false;
      }
      rest := rest - {o};
    }
    return true;
  }
}
