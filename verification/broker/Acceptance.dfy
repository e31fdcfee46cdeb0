/** Creation, acceptance, completion and cleanup keep one owner's record valid. */
module BrokerAcceptance {
  import opened Wrappers
  import opened BrokerLedger
  import opened BrokerChanges
  import opened BrokerValidity

  // ---------------------------------------------------------------------------
  // Remote session creation
  // ---------------------------------------------------------------------------

  lemma CreationFrame(s: Session, remote: string, state: CreateState, o: Owner)
    requires SessionValid(s, o) && !s.retired && !state.Deleted?
    requires CreationValid(s.(remoteID := remote, createState := state))
    ensures SessionValid(s.(remoteID := remote, createState := state), o)
  {
    var t := s.(remoteID := remote, createState := state);
    forall k | k in t.prompts ensures PromptValid(t.prompts[k], k, t) {
      PromptFrame(s.prompts[k], k, s, t);
    }
    LinksFrame(s, t);
  }

  lemma CreationStrong(s: Session, remote: string, state: CreateState)
    requires SessionStrong(s) && (state.CreateIntent? ==> s.responses == map[])
    ensures SessionStrong(s.(remoteID := remote, createState := state))
  {
    var t := s.(remoteID := remote, createState := state);
    forall k, q | HasInvocation(t, k, q) ensures AdmittedAs(t, t.prompts[k].invocations[q], k, q) {
      assert HasInvocation(s, k, q);
    }
  }

  lemma CreationAdvances(s: Session, remote: string, state: CreateState)
    ensures SessionAdvances(s, s.(remoteID := remote, createState := state))
  {
  }

  // ---------------------------------------------------------------------------
  // Acceptance of a response identity
  // ---------------------------------------------------------------------------

  function Linked(s: Session, alias: string, link: Link): Session {
    s.(responses := s.responses[alias := link])
  }

  /** A prompt that does not refer to `alias` does not see the link behind it. */
  lemma LinkFrame(p: Prompt, k: PromptKey, s: Session, alias: string, link: Link)
    requires PromptValid(p, k, s)
    requires forall q :: q in p.invocations && p.invocations[q].responseID != "" ==> p.invocations[q].alias != alias
    ensures PromptValid(p, k, Linked(s, alias, link))
  {
    var t := Linked(s, alias, link);
    forall q | q in p.invocations ensures InvocationValid(p.invocations[q], q, k, p.settled, t) {
      assert InvocationValid(p.invocations[q], q, k, p.settled, s);
    }
  }

  lemma FreshAliasUnused(s: Session, o: Owner, k: PromptKey, q: nat, alias: string)
    requires SessionValid(s, o) && alias !in s.responses && HasInvocation(s, k, q)
    requires s.prompts[k].invocations[q].responseID != ""
    ensures s.prompts[k].invocations[q].alias != alias
  {
    assert PromptValid(s.prompts[k], k, s);
    assert InvocationValid(s.prompts[k].invocations[q], q, k, s.prompts[k].settled, s);
  }

  lemma AcceptedInvocation(i: Invocation, q: nat, k: PromptKey, settled: bool, id: string, alias: string, t: Session)
    requires InvocationValid(i, q, k, settled, t) && i.state.Intent?
    requires id != "" && alias != "" && alias in t.responses && t.responses[alias] == Link(id, k, false, false, map[])
    ensures InvocationValid(i.(responseID := id, alias := alias, state := Accepted), q, k, settled, t)
  {
  }

  lemma SequenceFrame(p: Prompt, q: nat, i: Invocation)
    requires LastSequenceValid(p) && q in p.invocations
    ensures LastSequenceValid(WithInvocation(p, q, i))
  {
    assert q in WithInvocation(p, q, i).invocations;
  }

  /** In a record that holds the new link, the prompt may refer to it. */
  lemma AcceptedOver(p: Prompt, k: PromptKey, q: nat, id: string, alias: string, t: Session)
    requires PromptValid(p, k, t) && q in p.invocations && p.invocations[q].state.Intent?
    requires id != "" && alias != "" && alias in t.responses && t.responses[alias] == Link(id, k, false, false, map[])
    ensures PromptValid(AcceptedPrompt(p, q, id, alias), k, t)
  {
    hide LastAliasValid, LastSequenceValid, InvocationValid;
    var p1 := AcceptedPrompt(p, q, id, alias);
    LastAliasFrame(p, q, p1.invocations[q]);
    SequenceFrame(p, q, p1.invocations[q]);
    AcceptedInvocation(p.invocations[q], q, k, p.settled, id, alias, t);
  }

  lemma AcceptedPromptValid(s: Session, o: Owner, k: PromptKey, q: nat, id: string, alias: string)
    requires SessionValid(s, o) && HasInvocation(s, k, q) && s.prompts[k].invocations[q].state.Intent?
    requires id != "" && alias != "" && alias !in s.responses
    ensures PromptValid(AcceptedPrompt(s.prompts[k], q, id, alias), k, Linked(s, alias, Link(id, k, false, false, map[])))
  {
    hide LastAliasValid, LastSequenceValid, PromptIdentityValid, PromptClosureValid, InvocationValid;
    var p, link := s.prompts[k], Link(id, k, false, false, map[]);
    assert PromptValid(p, k, s);
    forall r | r in p.invocations && p.invocations[r].responseID != "" ensures p.invocations[r].alias != alias {
      FreshAliasUnused(s, o, k, r, alias);
    }
    LinkFrame(p, k, s, alias, link);
    AcceptedOver(p, k, q, id, alias, Linked(s, alias, link));
  }

  ghost predicate OneMoreProduct(s: Session, t: Session, k: PromptKey, q: nat, alias: string) {
    forall l, r: nat, a ::
      Produced(t, l, r, a) <==> Produced(s, l, r, a) || (l == k && r == q && a == alias)
  }

  lemma AcceptedProducts(s: Session, t: Session, k: PromptKey, q: nat, id: string, alias: string)
    requires HasInvocation(s, k, q) && s.prompts[k].invocations[q].responseID == "" && id != ""
    requires t.prompts == s.prompts[k := AcceptedPrompt(s.prompts[k], q, id, alias)]
    ensures OneMoreProduct(s, t, k, q, alias)
  {
  }

  lemma AcceptedLinks(s: Session, t: Session, o: Owner, k: PromptKey, q: nat, alias: string, link: Link)
    requires SessionValid(s, o) && alias !in s.responses && link.prompt == k
    requires OneMoreProduct(s, t, k, q, alias) && t.responses == s.responses[alias := link]
    ensures LinksExact(t)
  {
    hide PromptValid, SessionShapeValid;
    forall l, r: nat | Produced(s, l, r, alias) ensures false {
      FreshAliasUnused(s, o, l, r, alias);
    }
    forall a | a in t.responses ensures exists r :: Produced(t, t.responses[a].prompt, r, a) {
      if a == alias {
        assert Produced(t, k, q, a);
      } else {
        var r :| Produced(s, s.responses[a].prompt, r, a);
        assert Produced(t, s.responses[a].prompt, r, a);
      }
    }
  }

  lemma OtherPromptsUnlinked(s: Session, o: Owner, l: PromptKey, alias: string, link: Link)
    requires SessionValid(s, o) && alias !in s.responses && l in s.prompts
    ensures PromptValid(s.prompts[l], l, Linked(s, alias, link))
  {
    assert PromptValid(s.prompts[l], l, s);
    forall r | r in s.prompts[l].invocations && s.prompts[l].invocations[r].responseID != ""
      ensures s.prompts[l].invocations[r].alias != alias
    {
      FreshAliasUnused(s, o, l, r, alias);
    }
    LinkFrame(s.prompts[l], l, s, alias, link);
  }

  lemma IdentityPrompt(s: Session, o: Owner, k: PromptKey, q: nat, id: string, alias: string, l: PromptKey)
    requires SessionValid(s, o) && HasInvocation(s, k, q) && s.prompts[k].invocations[q].state.Intent?
    requires id != "" && alias != "" && alias !in s.responses
    requires l in s.prompts
    ensures PromptValid(AcceptedSession(s, k, q, id, alias).prompts[l], l, AcceptedSession(s, k, q, id, alias))
  {
    var link := Link(id, k, false, false, map[]);
    var t := AcceptedSession(s, k, q, id, alias);
    if l == k {
      AcceptedPromptValid(s, o, k, q, id, alias);
    } else {
      OtherPromptsUnlinked(s, o, l, alias, link);
    }
    PromptFrame(t.prompts[l], l, Linked(s, alias, link), t);
  }

  lemma IdentityPrompts(s: Session, o: Owner, k: PromptKey, q: nat, id: string, alias: string)
    requires SessionValid(s, o) && HasInvocation(s, k, q) && s.prompts[k].invocations[q].state.Intent?
    requires id != "" && alias != "" && alias !in s.responses
    ensures var t := AcceptedSession(s, k, q, id, alias);
            forall l :: l in t.prompts ==> PromptValid(t.prompts[l], l, t)
  {
    var t := AcceptedSession(s, k, q, id, alias);
    forall l | l in t.prompts ensures PromptValid(t.prompts[l], l, t) {
      IdentityPrompt(s, o, k, q, id, alias, l);
    }
  }

  lemma IdentityLinks(s: Session, o: Owner, k: PromptKey, q: nat, id: string, alias: string)
    requires SessionValid(s, o) && HasInvocation(s, k, q) && s.prompts[k].invocations[q].state.Intent?
    requires id != "" && alias !in s.responses
    ensures LinksExact(AcceptedSession(s, k, q, id, alias))
  {
    IntentUnanswered(s, o, k, q);
    var t := AcceptedSession(s, k, q, id, alias);
    AcceptedProducts(s, t, k, q, id, alias);
    AcceptedLinks(s, t, o, k, q, alias, Link(id, k, false, false, map[]));
  }

  lemma SessionAssembled(s: Session, o: Owner)
    requires SessionShapeValid(s, o) && LinksExact(s)
    requires forall k :: k in s.prompts ==> PromptValid(s.prompts[k], k, s)
    ensures SessionValid(s, o)
  {
  }

  lemma IdentityValidKept(s: Session, o: Owner, k: PromptKey, q: nat, id: string, alias: string)
    requires SessionValid(s, o) && HasInvocation(s, k, q) && s.prompts[k].invocations[q].state.Intent?
    requires id != "" && alias != "" && alias !in s.responses && s.createState.Known?
    ensures SessionValid(AcceptedSession(s, k, q, id, alias), o)
  {
    var t := AcceptedSession(s, k, q, id, alias);
    AcceptedShape(s, t, o);
    IdentityLinks(s, o, k, q, id, alias);
    IdentityPrompts(s, o, k, q, id, alias);
    SessionAssembled(t, o);
  }

  lemma IntentUnanswered(s: Session, o: Owner, k: PromptKey, q: nat)
    requires SessionValid(s, o) && HasInvocation(s, k, q) && Unaccepted(s.prompts[k].invocations[q].state)
    ensures s.prompts[k].invocations[q].responseID == "" && s.prompts[k].invocations[q].alias == ""
    ensures !s.prompts[k].settled
  {
    assert PromptValid(s.prompts[k], k, s);
    assert InvocationValid(s.prompts[k].invocations[q], q, k, s.prompts[k].settled, s);
  }

  lemma AcceptedShape(s: Session, t: Session, o: Owner)
    requires SessionShapeValid(s, o) && s.createState.Known?
    requires t == s.(prompts := t.prompts, responses := t.responses) && t.prompts.Keys == s.prompts.Keys
    ensures SessionShapeValid(t, o)
  {
    assert |t.prompts| == |t.prompts.Keys| == |s.prompts|;
  }

  lemma IdentityStrong(s: Session, k: PromptKey, q: nat, id: string, alias: string)
    requires SessionStrong(s) && HasInvocation(s, k, q) && s.createState.Known?
    requires IdentityChange(s, k, q, id, alias).Ok?
    ensures SessionStrong(IdentityChange(s, k, q, id, alias).value)
  {
    var i := s.prompts[k].invocations[q].(responseID := id, alias := alias, state := Accepted);
    assert AdmittedAs(s, s.prompts[k].invocations[q], k, q);
    InvocationPutStrong(s, k, q, i);
    LinkingStrong(PutInvocation(s, k, q, i), alias, Link(id, k, false, false, map[]));
  }

  lemma LinkingStrong(s: Session, alias: string, link: Link)
    requires SessionStrong(s) && !s.createState.CreateIntent?
    requires forall a :: a in s.responses && a != alias ==> s.responses[a].remoteID != link.remoteID
    requires Injective(link.callIDs)
    ensures SessionStrong(Linked(s, alias, link))
  {
    var t := Linked(s, alias, link);
    forall k, q | HasInvocation(t, k, q) ensures AdmittedAs(t, t.prompts[k].invocations[q], k, q) {
      assert HasInvocation(s, k, q);
    }
  }

  lemma LinkingAdvances(s: Session, t: Session, alias: string, link: Link)
    requires SessionAdvances(s, t) && (alias in s.responses ==> alias in t.responses && LinkAdvances(s.responses[alias], link))
    ensures SessionAdvances(s, Linked(t, alias, link))
  {
  }

  lemma IdentityAdvances(s: Session, o: Owner, k: PromptKey, q: nat, id: string, alias: string)
    requires SessionValid(s, o) && HasInvocation(s, k, q) && s.prompts[k].invocations[q].state.Intent?
    requires alias !in s.responses && IdentityChange(s, k, q, id, alias).Ok?
    ensures SessionAdvances(s, IdentityChange(s, k, q, id, alias).value)
  {
    hide SessionValid, PromptValid, SessionShapeValid, PromptIdentityValid, CreationValid, SessionAdvances;
    var i := s.prompts[k].invocations[q].(responseID := id, alias := alias, state := Accepted);
    IntentUnanswered(s, o, k, q);
    InvocationPutAdvances(s, k, q, i);
    LinkingAdvances(s, PutInvocation(s, k, q, i), alias, Link(id, k, false, false, map[]));
  }

  // ---------------------------------------------------------------------------
  // Completion
  // ---------------------------------------------------------------------------

  /** An accepted invocation owns its link: no other invocation refers to it. */
  lemma AcceptedOwnsLink(s: Session, o: Owner, k: PromptKey, q: nat, l: PromptKey, r: nat)
    requires SessionValid(s, o) && HasInvocation(s, k, q) && s.prompts[k].invocations[q].state.Accepted?
    requires HasInvocation(s, l, r) && s.prompts[l].invocations[r].responseID != ""
    requires s.prompts[l].invocations[r].alias == s.prompts[k].invocations[q].alias
    ensures l == k && r == q
  {
    var a := s.prompts[k].invocations[q].alias;
    assert PromptValid(s.prompts[k], k, s);
    assert PromptValid(s.prompts[l], l, s);
    assert InvocationValid(s.prompts[k].invocations[q], q, k, s.prompts[k].settled, s);
    assert InvocationValid(s.prompts[l].invocations[r], r, l, s.prompts[l].settled, s);
    assert Produced(s, k, q, a) && Produced(s, l, r, a);
  }

  lemma AcceptedFacts(s: Session, o: Owner, k: PromptKey, q: nat)
    requires SessionValid(s, o) && HasInvocation(s, k, q) && s.prompts[k].invocations[q].state.Accepted?
    ensures var i := s.prompts[k].invocations[q];
            i.responseID != "" && i.alias != "" && i.alias in s.responses && LinkValid(s.responses[i.alias], k, i)
            && !s.prompts[k].settled && !s.responses[i.alias].completed
  {
    assert PromptValid(s.prompts[k], k, s);
    assert InvocationValid(s.prompts[k].invocations[q], q, k, s.prompts[k].settled, s);
  }

  ghost predicate Completes(a: Link, b: Link) {
    && b == a.(completed := true, hasFunctions := b.hasFunctions, callIDs := b.callIDs)
    && (b.hasFunctions <==> |b.callIDs| > 0)
    && Injective(b.callIDs)
  }

  lemma LinkUnseen(i: Invocation, r: nat, k: PromptKey, settled: bool, s: Session, t: Session, a: string)
    requires InvocationValid(i, r, k, settled, s)
    requires i.responseID != "" ==> i.alias != a
    requires t.operations == s.operations && a in t.responses && t.responses == s.responses[a := t.responses[a]]
    ensures InvocationValid(i, r, k, settled, t)
  {
  }

  lemma LinkCompleted(i: Invocation, q: nat, k: PromptKey, s: Session, t: Session, link: Link)
    requires InvocationValid(i, q, k, false, s) && i.state.Accepted? && i.alias in s.responses
    requires Completes(s.responses[i.alias], link)
    requires t.operations == s.operations && t.responses == s.responses[i.alias := link]
    ensures InvocationValid(i.(state := Completed), q, k, false, t)
  {
  }

  lemma CompletedInvocations(s: Session, o: Owner, k: PromptKey, q: nat, link: Link, r: nat)
    requires SessionValid(s, o) && HasInvocation(s, k, q) && s.prompts[k].invocations[q].state.Accepted?
    requires s.prompts[k].invocations[q].alias in s.responses
    requires Completes(s.responses[s.prompts[k].invocations[q].alias], link)
    requires r in s.prompts[k].invocations && !s.prompts[k].settled
    ensures var t := CompletedSession(s, k, q, link);
            InvocationValid(t.prompts[k].invocations[r], r, k, false, t)
  {
    hide LinksExact, Produced, PromptIdentityValid, SessionShapeValid, LastAliasValid, InvocationValid, Completes;
    var t := CompletedSession(s, k, q, link);
    assert PromptValid(s.prompts[k], k, s);
    assert InvocationValid(s.prompts[k].invocations[r], r, k, false, s);
    if r == q {
      LinkCompleted(s.prompts[k].invocations[q], q, k, s, t, link);
    } else {
      if s.prompts[k].invocations[r].responseID != ""
         && s.prompts[k].invocations[r].alias == s.prompts[k].invocations[q].alias {
        AcceptedOwnsLink(s, o, k, q, k, r);
      }
      LinkUnseen(s.prompts[k].invocations[r], r, k, false, s, t, s.prompts[k].invocations[q].alias);
    }
  }

  lemma CompletedLast(p: Prompt, q: nat)
    requires LastSequenceValid(p) && q in p.invocations && q == p.lastSequence
    ensures LastSequenceValid(CompletedPrompt(p, q)) && LastAliasValid(CompletedPrompt(p, q))
  {
    assert LatestCompleted(CompletedPrompt(p, q), q);
  }

  lemma CompletedPromptHere(s: Session, o: Owner, k: PromptKey, q: nat, link: Link)
    requires SessionValid(s, o) && HasInvocation(s, k, q) && s.prompts[k].invocations[q].state.Accepted?
    requires Completes(s.responses[s.prompts[k].invocations[q].alias], link) && q == s.prompts[k].lastSequence
    ensures PromptValid(CompletedSession(s, k, q, link).prompts[k], k, CompletedSession(s, k, q, link))
  {
    hide InvocationValid, LinksExact, SessionShapeValid, LastSequenceValid, LastAliasValid, Completes;
    var t := CompletedSession(s, k, q, link);
    AcceptedFacts(s, o, k, q);
    assert PromptValid(s.prompts[k], k, s);
    CompletedLast(s.prompts[k], q);
    forall r | r in t.prompts[k].invocations
      ensures InvocationValid(t.prompts[k].invocations[r], r, k, t.prompts[k].settled, t)
    {
      CompletedInvocations(s, o, k, q, link, r);
    }
  }

  lemma CompletedPromptElsewhere(s: Session, o: Owner, k: PromptKey, q: nat, link: Link, l: PromptKey)
    requires SessionValid(s, o) && HasInvocation(s, k, q) && s.prompts[k].invocations[q].state.Accepted?
    requires Completes(s.responses[s.prompts[k].invocations[q].alias], link) && l in s.prompts && l != k
    ensures PromptValid(CompletedSession(s, k, q, link).prompts[l], l, CompletedSession(s, k, q, link))
  {
    hide LinksExact, SessionShapeValid, LastSequenceValid, LastAliasValid;
    var t, alias := CompletedSession(s, k, q, link), s.prompts[k].invocations[q].alias;
    AcceptedFacts(s, o, k, q);
    assert PromptValid(s.prompts[l], l, s);
    forall r | r in s.prompts[l].invocations && s.prompts[l].invocations[r].responseID != ""
      ensures s.prompts[l].invocations[r].alias != alias
    {
      if s.prompts[l].invocations[r].alias == alias {
        AcceptedOwnsLink(s, o, k, q, l, r);
      }
    }
    LinkFrame(s.prompts[l], l, s, alias, link);
    PromptFrame(s.prompts[l], l, Linked(s, alias, link), t);
  }

  lemma CompletedPromptKept(s: Session, o: Owner, k: PromptKey, q: nat, link: Link, l: PromptKey)
    requires SessionValid(s, o) && HasInvocation(s, k, q) && s.prompts[k].invocations[q].state.Accepted?
    requires Completes(s.responses[s.prompts[k].invocations[q].alias], link)
    requires q == s.prompts[k].lastSequence && l in s.prompts
    ensures PromptValid(CompletedSession(s, k, q, link).prompts[l], l, CompletedSession(s, k, q, link))
  {
    hide SessionValid, PromptValid, Completes, CompletedSession;
    if l == k { CompletedPromptHere(s, o, k, q, link); } else { CompletedPromptElsewhere(s, o, k, q, link, l); }
  }

  lemma CompletedProducers(s: Session, k: PromptKey, q: nat, link: Link)
    requires HasInvocation(s, k, q)
    ensures SameProducers(s, CompletedSession(s, k, q, link))
  {
  }

  lemma LinksMoved(s: Session, t: Session)
    requires LinksExact(s) && SameProducers(s, t) && t.responses.Keys == s.responses.Keys
    requires forall a :: a in t.responses ==> t.responses[a].prompt == s.responses[a].prompt
    ensures LinksExact(t)
  {
    forall a | a in t.responses ensures exists r :: Produced(t, t.responses[a].prompt, r, a) {
      var r :| Produced(s, s.responses[a].prompt, r, a);
      assert Produced(t, s.responses[a].prompt, r, a);
    }
  }

  lemma CompletedLinks(s: Session, k: PromptKey, q: nat, link: Link)
    requires LinksExact(s) && HasInvocation(s, k, q) && s.prompts[k].invocations[q].alias in s.responses
    requires link.prompt == s.responses[s.prompts[k].invocations[q].alias].prompt
    ensures LinksExact(CompletedSession(s, k, q, link))
  {
    CompletedProducers(s, k, q, link);
    LinksMoved(s, CompletedSession(s, k, q, link));
  }

  lemma CompletedValid(s: Session, o: Owner, k: PromptKey, q: nat, link: Link)
    requires SessionValid(s, o) && HasInvocation(s, k, q) && s.prompts[k].invocations[q].state.Accepted?
    requires Completes(s.responses[s.prompts[k].invocations[q].alias], link)
    requires q == s.prompts[k].lastSequence && s.createState.Known?
    ensures SessionValid(CompletedSession(s, k, q, link), o)
  {
    hide PromptValid, LinksExact, Produced, LinkValid, InvocationValid, LastAliasValid, CompletedPrompt, LastSequenceValid, WithInvocation, PromptIdentityValid;
    var t := CompletedSession(s, k, q, link);
    AcceptedFacts(s, o, k, q);
    AcceptedShape(s, t, o);
    CompletedLinks(s, k, q, link);
    forall l | l in t.prompts ensures PromptValid(t.prompts[l], l, t) {
      CompletedPromptKept(s, o, k, q, link, l);
    }
    SessionAssembled(t, o);
  }

  lemma CompletedStrong(s: Session, k: PromptKey, q: nat, link: Link)
    requires SessionStrong(s) && HasInvocation(s, k, q) && !s.createState.CreateIntent?
    requires s.prompts[k].invocations[q].alias in s.responses
    requires link.remoteID == s.responses[s.prompts[k].invocations[q].alias].remoteID && Injective(link.callIDs)
    ensures SessionStrong(CompletedSession(s, k, q, link))
  {
    var t := CompletedSession(s, k, q, link);
    forall l, r | HasInvocation(t, l, r) ensures AdmittedAs(t, t.prompts[l].invocations[r], l, r) {
      assert HasInvocation(s, l, r);
    }
  }

  lemma CompletedPromptAdvances(p: Prompt, q: nat)
    requires q in p.invocations && p.invocations[q].state.Accepted?
    ensures PromptAdvances(p, CompletedPrompt(p, q))
  {
  }

  lemma CompletedAdvances(s: Session, o: Owner, k: PromptKey, q: nat, link: Link)
    requires SessionValid(s, o) && HasInvocation(s, k, q) && s.prompts[k].invocations[q].state.Accepted?
    requires Completes(s.responses[s.prompts[k].invocations[q].alias], link)
    ensures SessionAdvances(s, CompletedSession(s, k, q, link))
  {
    AcceptedFacts(s, o, k, q);
    CompletionAdvances(s, k, q, link);
  }

  lemma CompletionAdvances(s: Session, k: PromptKey, q: nat, link: Link)
    requires HasInvocation(s, k, q) && s.prompts[k].invocations[q].state.Accepted?
    requires s.prompts[k].invocations[q].alias in s.responses
    requires LinkAdvances(s.responses[s.prompts[k].invocations[q].alias], link)
    requires Unfinished(s, s.prompts[k].invocations[q].alias)
    ensures SessionAdvances(s, CompletedSession(s, k, q, link))
  {
    var t := PutPrompt(s, k, CompletedPrompt(s.prompts[k], q));
    forall l | l in s.prompts ensures PromptAdvances(s.prompts[l], t.prompts[l]) {
      if l == k {
        CompletedPromptAdvances(s.prompts[k], q);
      } else {
        PromptAdvancesSelf(s.prompts[l]);
      }
    }
    AdvancesByPrompts(s, t);
    LinkingAdvances(s, t, s.prompts[k].invocations[q].alias, link);
  }

  // ---------------------------------------------------------------------------
  // Settlement and retirement
  // ---------------------------------------------------------------------------

  lemma SettledPromptValid(p: Prompt, proof: Proof, k: PromptKey, s: Session, t: Session)
    requires PromptValid(p, k, s) && p.closing
    requires t == s.(prompts := t.prompts)
    ensures PromptValid(SettlePrompt(p, proof), k, t)
  {
    var p1 := SettlePrompt(p, proof);
    assert p1.invocations.Keys == p.invocations.Keys;
    assert p1.invocations == map[] <==> p.invocations == map[];
    forall q | q in p1.invocations ensures InvocationValid(p1.invocations[q], q, k, p1.settled, t) {
      assert InvocationValid(p.invocations[q], q, k, p.settled, s);
    }
    if exists q :: q in p.invocations && p.invocations[q].state.Completed? {
      var q :| LatestCompleted(p, q) && p.lastAlias == p.invocations[q].alias;
      assert LatestCompleted(p1, q);
    }
  }

  lemma SettledSame(p: Prompt, proof: Proof)
    ensures var n := SettlePrompt(p, proof);
            && n.invocations.Keys == p.invocations.Keys
            && forall q :: q in p.invocations ==>
                 n.invocations[q].responseID == p.invocations[q].responseID && n.invocations[q].alias == p.invocations[q].alias
  {
  }

  lemma SettledProducers(s: Session, closing: set<PromptKey>, kind: Kind, remote: string, at: int)
    ensures SameProducers(s, SettlePrompts(s, closing, kind, remote, at))
  {
    hide SettlePrompt;
    var t := SettlePrompts(s, closing, kind, remote, at);
    forall k, q, a ensures Produced(t, k, q, a) <==> Produced(s, k, q, a) {
      if k in s.prompts { SettledSame(s.prompts[k], Proof(s.owner, Some(k), remote, kind, at)); }
    }
  }

  lemma SettledValid(s: Session, closing: set<PromptKey>, kind: Kind, remote: string, at: int, o: Owner)
    requires SessionValid(s, o) && forall k :: k in closing && k in s.prompts ==> s.prompts[k].closing
    ensures SessionValid(SettlePrompts(s, closing, kind, remote, at), o)
  {
    hide PromptValid, PromptIdentityValid, PromptClosureValid, LinksExact, SessionShapeValid, LastAliasValid, RetirementValid, LastSequenceValid, SettlePrompt;
    var t := SettlePrompts(s, closing, kind, remote, at);
    assert t.prompts.Keys == s.prompts.Keys;
    ClosingShape(s, t, o);
    SettledProducers(s, closing, kind, remote, at);
    LinksSame(s, t);
    forall k | k in t.prompts ensures PromptValid(t.prompts[k], k, t) {
      if k in closing {
        SettledPromptValid(s.prompts[k], Proof(s.owner, Some(k), remote, kind, at), k, s, t);
      } else {
        PromptFrame(s.prompts[k], k, s, t);
      }
    }
    SessionAssembled(t, o);
  }

  lemma SettledStrong(s: Session, closing: set<PromptKey>, kind: Kind, remote: string, at: int)
    requires SessionStrong(s)
    ensures SessionStrong(SettlePrompts(s, closing, kind, remote, at))
  {
    var t := SettlePrompts(s, closing, kind, remote, at);
    forall k, q | HasInvocation(t, k, q) ensures AdmittedAs(t, t.prompts[k].invocations[q], k, q) {
      assert HasInvocation(s, k, q);
    }
  }

  /** Only finished invocations may be finalized, and only prompts not settled before. */
  ghost predicate Settleable(s: Session, closing: set<PromptKey>) {
    forall k :: k in closing ==>
                  && k in s.prompts && s.prompts[k].closing && !s.prompts[k].settled
                  && forall q :: q in s.prompts[k].invocations ==> !AmbiguousInvocation(s.prompts[k].invocations[q])
  }

  lemma SettledInvocationAdvances(i: Invocation)
    requires !i.state.Uncertain? && !i.state.Intent? && !i.state.Completed?
    ensures InvocationAdvances(i, i.(state := Finalized))
  {
  }

  lemma SettledPromptAdvances(p: Prompt, proof: Proof, k: PromptKey, s: Session)
    requires PromptValid(p, k, s) && !p.settled
    requires forall q :: q in p.invocations ==> !AmbiguousInvocation(p.invocations[q])
    ensures PromptAdvances(p, SettlePrompt(p, proof))
  {
    var p1 := SettlePrompt(p, proof);
    forall q | q in p.invocations ensures InvocationAdvances(p.invocations[q], p1.invocations[q]) {
      assert InvocationValid(p.invocations[q], q, k, p.settled, s);
      if !p.invocations[q].state.Completed? {
        SettledInvocationAdvances(p.invocations[q]);
      }
    }
  }

  lemma SettledOneAdvances(s: Session, closing: set<PromptKey>, kind: Kind, remote: string, at: int, o: Owner, k: PromptKey)
    requires SessionValid(s, o) && Settleable(s, closing) && k in s.prompts
    ensures PromptAdvances(s.prompts[k], SettlePrompts(s, closing, kind, remote, at).prompts[k])
  {
    if k in closing {
      assert PromptValid(s.prompts[k], k, s);
      SettledPromptAdvances(s.prompts[k], Proof(s.owner, Some(k), remote, kind, at), k, s);
    } else {
      PromptAdvancesSelf(s.prompts[k]);
    }
  }

  lemma SettledAdvances(s: Session, closing: set<PromptKey>, kind: Kind, remote: string, at: int, o: Owner)
    requires SessionValid(s, o) && Settleable(s, closing)
    ensures SessionAdvances(s, SettlePrompts(s, closing, kind, remote, at))
  {
    hide Produced, SessionValid, LinksExact, SessionShapeValid, PromptValid, PromptIdentityValid, PromptAdvances;
    var t := SettlePrompts(s, closing, kind, remote, at);
    forall k | k in s.prompts ensures PromptAdvances(s.prompts[k], t.prompts[k]) {
      SettledOneAdvances(s, closing, kind, remote, at, o, k);
    }
    AdvancesByPrompts(s, t);
  }

  function Retired(s: Session, created: bool, proof: Proof): Session {
    s.(createState := if created then Deleted else s.createState, retired := true, proof := Some(proof))
  }

  lemma RetiredValid(s: Session, created: bool, proof: Proof, o: Owner)
    requires SessionValid(s, o) && s.retiring && !s.retired
    requires created <==> s.createState.Known?
    requires !s.createState.CreateIntent?
    requires forall k :: k in s.prompts ==> s.prompts[k].settled
    ensures SessionValid(Retired(s, created, proof), o)
  {
    var t := Retired(s, created, proof);
    forall k | k in t.prompts ensures PromptValid(t.prompts[k], k, t) {
      assert PromptValid(s.prompts[k], k, s);
      forall q | q in t.prompts[k].invocations
        ensures InvocationValid(t.prompts[k].invocations[q], q, k, t.prompts[k].settled, t)
      {
        assert InvocationValid(s.prompts[k].invocations[q], q, k, s.prompts[k].settled, s);
      }
    }
    LinksFrame(s, t);
  }

  lemma RetiredStrong(s: Session, created: bool, proof: Proof)
    requires SessionStrong(s)
    ensures SessionStrong(Retired(s, created, proof))
  {
    var t := Retired(s, created, proof);
    forall k, q | HasInvocation(t, k, q) ensures AdmittedAs(t, t.prompts[k].invocations[q], k, q) {
      assert HasInvocation(s, k, q);
    }
  }

  lemma RetiredAdvances(s: Session, t: Session, created: bool, proof: Proof)
    requires SessionAdvances(s, t) && !s.retired
    ensures SessionAdvances(s, Retired(t, created, proof))
  {
  }
}
