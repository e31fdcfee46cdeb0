/** The steps of a cleanup worker, against its owner's record and the remote world. */
module BrokerCleanup {
  import opened Wrappers
  import opened BrokerLedger
  import opened BrokerChanges
  import opened BrokerValidity
  import opened BrokerAcceptance
  import opened BrokerSystem
  import opened BrokerInvariant
  import opened BrokerSteps

  lemma CaptureHolds(m: Session, w: World)
    requires !m.retired && !m.createState.CreateIntent? && (ClosingPrompts(m) != {} || m.retiring)
    ensures WorkerFacts(m, Capture(m), w)
  {
    var k := Capture(m);
    if k.quiet {
      forall c | c in k.closing
        ensures forall q :: q in m.prompts[c].invocations ==> QuietInvocation(m.prompts[c].invocations[q])
      {
      }
    }
  }

  // ---------------------------------------------------------------------------
  // Remote evidence
  // ---------------------------------------------------------------------------

  lemma QuietedWorld(s: Session, m: Session, w: World, active: bool)
    requires SessionWorld(s, w)
    ensures SessionWorld(s, Quieted(w, m, active))
  {
    var w1 := Quieted(w, m, active);
    forall key | key in w1.infers ensures InferAccounted(s, key, w1.infers[key]) {
      assert InferAccounted(s, key, w.infers[key]);
    }
  }

  lemma GoneWorld(s: Session, w: World, remote: string)
    requires SessionWorld(s, w)
    ensures SessionWorld(s, w.(gone := w.gone + {remote}))
  {
    var w1 := w.(gone := w.gone + {remote});
    forall key | key in w1.infers ensures InferAccounted(s, key, w1.infers[key]) {
      assert InferAccounted(s, key, w.infers[key]);
    }
  }

  lemma CapturedQuiet(m: Session, k: Worker, w: World)
    requires CapturedFacts(m, k)
    ensures QuietWorld(k, Quieted(w, m, false))
  {
  }

  // ---------------------------------------------------------------------------
  // The commit
  // ---------------------------------------------------------------------------

  lemma NotAmbiguous(m: Session, c: PromptKey, q: nat)
    requires !SessionAmbiguous(m) && HasInvocation(m, c, q)
    ensures !AmbiguousInvocation(m.prompts[c].invocations[q])
  {
  }

  lemma ClosingSettleable(m: Session, k: Worker)
    requires CapturedFacts(m, k) && !k.ambiguous
    ensures Settleable(m, k.closing)
  {
    forall c, q | c in k.closing && q in m.prompts[c].invocations
      ensures !AmbiguousInvocation(m.prompts[c].invocations[q])
    {
      NotAmbiguous(m, c, q);
    }
  }

  /** Why each request of a settled prompt can be forgotten. */
  lemma SettledFate(m: Session, o: Owner, k: Worker, w: World, key: InferKey)
    requires SessionValid(m, o) && SessionWorld(m, w) && WorkerFacts(m, k, w) && k.stage.Evidence?
    requires key in w.infers && key.prompt in k.closing
    ensures HasInvocation(m, key.prompt, key.seqNo)
    ensures var state := m.prompts[key.prompt].invocations[key.seqNo].state;
            if state.Completed? then w.infers[key].acked else w.infers[key].rejected || (w.infers[key].acked && w.infers[key].quiet)
  {
    assert InferAccounted(m, key, w.infers[key]);
    NotAmbiguous(m, key.prompt, key.seqNo);
    FateWithoutAmbiguity(m, o, k, w, key);
  }

  lemma FateWithoutAmbiguity(m: Session, o: Owner, k: Worker, w: World, key: InferKey)
    requires SessionValid(m, o) && WorkerFacts(m, k, w) && k.stage.Evidence?
    requires key in w.infers && key.prompt in k.closing && InferAccounted(m, key, w.infers[key])
    requires !AmbiguousInvocation(m.prompts[key.prompt].invocations[key.seqNo])
    ensures var state := m.prompts[key.prompt].invocations[key.seqNo].state;
            if state.Completed? then w.infers[key].acked else w.infers[key].rejected || (w.infers[key].acked && w.infers[key].quiet)
  {
    hide LinksExact;
    var i := m.prompts[key.prompt].invocations[key.seqNo];
    assert PromptValid(m.prompts[key.prompt], key.prompt, m);
    assert InvocationValid(i, key.seqNo, key.prompt, false, m);
    if i.state.Accepted? {
      assert m.createState.Known?;
      assert !QuietInvocation(i);
    }
  }

  lemma SettledWorld(m: Session, o: Owner, k: Worker, w: World, kind: Kind, at: int)
    requires SessionValid(m, o) && SessionWorld(m, w) && WorkerFacts(m, k, w) && k.stage.Evidence?
    ensures SessionWorld(SettlePrompts(m, k.closing, kind, k.remote, at), w)
  {
    hide PromptValid;
    var t := SettlePrompts(m, k.closing, kind, k.remote, at);
    forall key | key in w.infers ensures InferAccounted(t, key, w.infers[key]) {
      assert InferAccounted(m, key, w.infers[key]);
      if key.prompt in k.closing {
        SettledFate(m, o, k, w, key);
      }
    }
  }

  lemma SettleStep(m: Session, o: Owner, k: Worker, w: World, kind: Kind, at: int)
    requires SessionSound(m, o) && SessionWorld(m, w) && WorkerFacts(m, k, w) && k.stage.Evidence?
    ensures WorkStep(m, SettlePrompts(m, k.closing, kind, k.remote, at), o, w)
  {
    SettledValid(m, k.closing, kind, k.remote, at, o);
    SettledStrong(m, k.closing, kind, k.remote, at);
    ClosingSettleable(m, k);
    SettledAdvances(m, k.closing, kind, k.remote, at, o);
    SettledWorld(m, o, k, w, kind, at);
  }

  lemma RetiredWorld(s: Session, created: bool, proof: Proof, w: World)
    requires SessionWorld(s, w) && (created ==> s.createState.Known? && s.remoteID in w.gone)
    ensures SessionWorld(Retired(s, created, proof), w)
  {
    var t := Retired(s, created, proof);
    forall key | key in w.infers ensures InferAccounted(t, key, w.infers[key]) {
      assert InferAccounted(s, key, w.infers[key]);
    }
  }

  lemma CleanupStages(m: Session, closing: set<PromptKey>, retiring: bool, created: bool, kind: Kind, remote: string, at: int)
    requires CleanupChange(m, closing, retiring, created, kind, remote, at).Ok?
    ensures var s1 := SettlePrompts(m, closing, kind, remote, at);
            var t := CleanupChange(m, closing, retiring, created, kind, remote, at).value;
            if !retiring then t == s1
            else t == Retired(s1, created, Proof(m.owner, None, remote, kind, at))
                 && forall k :: k in s1.prompts ==> s1.prompts[k].settled
  {
  }

  lemma RetirementBacked(m: Session, k: Worker, w: World)
    requires WorkerFacts(m, k, w) && k.stage.Evidence? && k.retiring
    ensures m.retiring && !m.retired && !m.createState.CreateIntent? && m.createState == k.createState
    ensures k.createState.Known? ==> k.remote == m.remoteID && k.remote in w.gone
  {
  }

  lemma CleanupCommitted(m: Session, o: Owner, k: Worker, w: World, at: int)
    requires SessionSound(m, o) && SessionWorld(m, w) && WorkerFacts(m, k, w) && k.stage.Evidence?
    requires CleanupChange(m, k.closing, k.retiring, k.createState.Known?, k.stage.kind, k.remote, at).Ok?
    ensures WorkStep(m, CleanupChange(m, k.closing, k.retiring, k.createState.Known?, k.stage.kind, k.remote, at).value, o, w)
  {
    var created := k.createState.Known?;
    CleanupStages(m, k.closing, k.retiring, created, k.stage.kind, k.remote, at);
    SettleStep(m, o, k, w, k.stage.kind, at);
    if k.retiring {
      RetirementBacked(m, k, w);
      RetireStep(m, SettlePrompts(m, k.closing, k.stage.kind, k.remote, at), created,
                 Proof(m.owner, None, k.remote, k.stage.kind, at), o, w);
    }
  }

  lemma RetireStep(m: Session, s: Session, created: bool, proof: Proof, o: Owner, w: World)
    requires WorkStep(m, s, o, w) && !m.retired && s.retiring && !s.retired && !s.createState.CreateIntent?
    requires (created <==> s.createState.Known?) && (created ==> s.remoteID in w.gone)
    requires forall k :: k in s.prompts ==> s.prompts[k].settled
    ensures WorkStep(m, Retired(s, created, proof), o, w)
  {
    RetiredValid(s, created, proof, o);
    RetiredStrong(s, created, proof);
    RetiredAdvances(m, s, created, proof);
    RetiredWorld(s, created, proof, w);
  }
}
