/** What the invariant means for the remote service and for the broker's callers. */
module BrokerTheorems {
  import opened Wrappers
  import opened BrokerLedger
  import opened BrokerChanges
  import opened BrokerValidity
  import opened BrokerSystem
  import opened BrokerInvariant
  import opened BrokerSafety
  import opened BrokerMoves
  import opened BrokerEvents
  import opened BrokerRuns

  /** An owner's record in either ledger, with everything the invariant says of it. */
  lemma RecordNow(s: System, o: Owner, m: Session)
    requires SystemInv(s) && (Record(s.b.mem, o, m) || Record(s.b.disk, o, m))
    ensures SessionSound(m, o) && SessionWorld(m, WorldOf(s, o))
    ensures o in s.procs ==> ProcFacts(m, s.procs[o], WorldOf(s, o))
  {
    assert OwnerInv(s, o);
    var l := if Record(s.b.mem, o, m) then s.b.mem else s.b.disk;
    SideOpen(l, o, ProcOf(s, o), WorldOf(s, o));
  }

  // ---------------------------------------------------------------------------
  // Settlement and retirement
  // ---------------------------------------------------------------------------

  /** Nothing more can come of a request that was sent for this invocation. */
  ghost predicate Harmless(i: Invocation, r: InferRec) {
    && r.attempts == 1
    && ((i.state.Completed? && r.acked) || r.rejected || (r.acked && r.quiet))
  }

  /** Every inference ever dispatched for prompt `k`. */
  ghost predicate AllHarmless(m: Session, w: World, k: PromptKey) {
    forall key :: key in w.infers && key.prompt == k ==>
      HasInvocation(m, k, key.seqNo) && Harmless(m.prompts[k].invocations[key.seqNo], w.infers[key])
  }

  lemma SettledHarmless(m: Session, o: Owner, w: World, k: PromptKey)
    requires SessionValid(m, o) && InfersAccounted(m, w) && k in m.prompts && m.prompts[k].settled
    ensures AllHarmless(m, w, k)
  {
    assert PromptValid(m.prompts[k], k, m);
    forall key | key in w.infers && key.prompt == k
      ensures HasInvocation(m, k, key.seqNo) && Harmless(m.prompts[k].invocations[key.seqNo], w.infers[key])
    {
      assert InferAccounted(m, key, w.infers[key]);
      assert InvocationValid(m.prompts[k].invocations[key.seqNo], key.seqNo, k, true, m);
    }
  }

  /** Once a prompt is settled in memory or on disk, no request of it can still arrive. */
  lemma SettlementSound(size: Ledger -> nat, configDigest: string, now: int, events: seq<Event>, o: Owner, m: Session, k: PromptKey)
    requires now > 0
    requires var s := Run(size, Initial(configDigest, now), events);
             (Record(s.b.mem, o, m) || Record(s.b.disk, o, m)) && k in m.prompts && m.prompts[k].settled
    ensures AllHarmless(m, WorldOf(Run(size, Initial(configDigest, now), events), o), k)
  {
    var s := Run(size, Initial(configDigest, now), events);
    Reachable(size, configDigest, now, events);
    RecordNow(s, o, m);
    SettledHarmless(m, o, WorldOf(s, o), k);
  }

  /** Either nothing was ever created for the owner, or exactly one session was, and it was seen gone. */
  ghost predicate CreationClosed(m: Session, w: World) {
    || (forall r :: r in w.creates ==> w.creates[r].rejected)
    || (&& m.remoteID in w.creates && w.creates[m.remoteID].acked && m.remoteID in w.gone
        && forall r :: r in w.creates && !w.creates[r].rejected ==> r == m.remoteID)
  }

  lemma RetiredClosed(m: Session, o: Owner, w: World)
    requires SessionValid(m, o) && SessionWorld(m, w) && m.retired
    ensures CreationClosed(m, w) && forall k :: k in m.prompts ==> m.prompts[k].settled && AllHarmless(m, w, k)
  {
    forall k | k in m.prompts ensures m.prompts[k].settled && AllHarmless(m, w, k) {
      assert PromptValid(m.prompts[k], k, m);
      SettledHarmless(m, o, w, k);
    }
  }

  /** A retired owner has nothing left at the remote service. */
  lemma RetirementSound(size: Ledger -> nat, configDigest: string, now: int, events: seq<Event>, o: Owner, m: Session)
    requires now > 0
    requires var s := Run(size, Initial(configDigest, now), events);
             (Record(s.b.mem, o, m) || Record(s.b.disk, o, m)) && m.retired
    ensures var w := WorldOf(Run(size, Initial(configDigest, now), events), o);
            CreationClosed(m, w) && forall k :: k in m.prompts ==> m.prompts[k].settled && AllHarmless(m, w, k)
  {
    hide Run;
    var s := Run(size, Initial(configDigest, now), events);
    Reachable(size, configDigest, now, events);
    RecordNow(s, o, m);
    RetiredClosed(m, o, WorldOf(s, o));
  }

  /** DELETE is on its way only for a retiring owner without ambiguous or active work, and only for its own session. */
  lemma DeletionSafe(size: Ledger -> nat, configDigest: string, now: int, events: seq<Event>, o: Owner)
    requires now > 0
    requires var s := Run(size, Initial(configDigest, now), events);
             o in s.workers && s.workers[o].stage.Deleting?
    ensures var s := Run(size, Initial(configDigest, now), events);
            && o in s.b.mem.sessions && o !in s.b.active
            && var m := s.b.mem.sessions[o];
               m.retiring && !m.retired && m.createState.Known? && s.workers[o].remote == m.remoteID && !SessionAmbiguous(m)
  {
    hide Run, Apply, ProcStep, ReserveStep, WorkerStep, RecordInv;
    var s := Run(size, Initial(configDigest, now), events);
    Reachable(size, configDigest, now, events);
    assert OwnerInv(s, o);
    WorkerNow(s, o);
  }

  // ---------------------------------------------------------------------------
  // At most once
  // ---------------------------------------------------------------------------

  lemma SideRecord(s: System, o: Owner)
    requires SystemInv(s) && (WorldOf(s, o).infers != map[] || WorldOf(s, o).creates != map[])
    ensures o in s.b.disk.sessions && Record(s.b.disk, o, s.b.disk.sessions[o])
  {
    assert OwnerInv(s, o);
  }

  lemma SameAdmission(m: Session, o: Owner, w: World, a: InferKey, b: InferKey)
    requires SessionStrong(m) && InfersAccounted(m, w) && a in w.infers && b in w.infers
    requires w.infers[a].operationID == w.infers[b].operationID
    ensures a == b
  {
    assert InferAccounted(m, a, w.infers[a]) && InferAccounted(m, b, w.infers[b]);
    assert AdmittedAs(m, m.prompts[a.prompt].invocations[a.seqNo], a.prompt, a.seqNo);
    assert AdmittedAs(m, m.prompts[b.prompt].invocations[b.seqNo], b.prompt, b.seqNo);
  }

  /**
   In any run, with any crashes: an inference is sent at most once for each prompt and sequence
   number and for each operation, a creation at most once for each session identity, and at most
   one creation for an owner was not definitely refused.
   */
  lemma AtMostOnce(size: Ledger -> nat, configDigest: string, now: int, events: seq<Event>, o: Owner)
    requires now > 0
    ensures var w := WorldOf(Run(size, Initial(configDigest, now), events), o);
            && (forall key :: key in w.infers ==> w.infers[key].attempts == 1)
            && (forall a, b :: a in w.infers && b in w.infers && w.infers[a].operationID == w.infers[b].operationID ==> a == b)
            && (forall r :: r in w.creates ==> w.creates[r].attempts == 1)
            && (forall a, b :: a in w.creates && b in w.creates && !w.creates[a].rejected && !w.creates[b].rejected ==> a == b)
  {
    hide Run, Apply, ReserveStep, ProcStep, HasInvocation;
    var s := Run(size, Initial(configDigest, now), events);
    var w := WorldOf(s, o);
    Reachable(size, configDigest, now, events);
    if w.infers != map[] || w.creates != map[] {
      SideRecord(s, o);
      var m := s.b.disk.sessions[o];
      RecordNow(s, o, m);
      forall key | key in w.infers ensures w.infers[key].attempts == 1 {
        assert InferAccounted(m, key, w.infers[key]);
      }
      forall a, b | a in w.infers && b in w.infers && w.infers[a].operationID == w.infers[b].operationID ensures a == b {
        SameAdmission(m, o, w, a, b);
      }
    }
  }

  // ---------------------------------------------------------------------------
  // Memory and disk
  // ---------------------------------------------------------------------------

  /** While its storage works, the broker's memory is what the disk holds. */
  lemma MemoryRefinesDisk(size: Ledger -> nat, configDigest: string, now: int, events: seq<Event>)
    requires now > 0
    ensures var s := Run(size, Initial(configDigest, now), events);
            && (s.up && !s.b.poisoned ==> s.b.mem == s.b.disk)
            && (s.up && s.b.poisoned ==> forall o :: RequestCancelled(s.b, o))
            && Forward(s.b.mem, s.b.disk)
  {
    Reachable(size, configDigest, now, events);
  }

  /** The account pinned first stays: over any events it is never changed, and another one is always refused. */
  lemma AccountPinned(size: Ledger -> nat, s: System, events: seq<Event>, digest: string, io: Io)
    requires RunInv(s) && s.b.mem.principal != ""
    ensures var t := Run(size, s, events);
            && t.b.mem.principal == s.b.mem.principal && t.b.disk.principal == s.b.mem.principal
            && (digest != s.b.mem.principal ==> PinPrincipal(size, t.b, digest, io) == (t.b, Err(Conflict)))
  {
    hide Apply, Run, SystemInv;
    RunKeeps(size, s, events);
  }

  /** A response is handed back as successful only when its completion is on disk. */
  lemma SuccessIsDurable(size: Ledger -> nat, configDigest: string, now: int, events: seq<Event>, o: Owner)
    requires now > 0
    requires var s := Run(size, Initial(configDigest, now), events);
             o in s.procs && s.procs[o].pc == Ended(Success)
    ensures var s := Run(size, Initial(configDigest, now), events);
            var p := s.procs[o];
            && o in s.b.disk.sessions && HasInvocation(s.b.disk.sessions[o], p.prompt, p.seqNo)
            && var i := s.b.disk.sessions[o].prompts[p.prompt].invocations[p.seqNo];
               && i.state.Completed? && i.responseID != ""
               && i.alias in s.b.disk.sessions[o].responses && s.b.disk.sessions[o].responses[i.alias].completed
               && s.b.disk.sessions[o].responses[i.alias].remoteID == i.responseID
  {
    hide Run, Apply, ProcStep, ReserveStep, ReserveNext, WorkerStep, RestartStep, LedgerValid, WorldOf;
    var s := Run(size, Initial(configDigest, now), events);
    Reachable(size, configDigest, now, events);
    assert OwnerInv(s, o);
    OwnerSides(s, o);
    var m := s.b.disk.sessions[o];
    RecordNow(s, o, m);
    CompletedFacts(m, o, s.procs[o], WorldOf(s, o));
  }

  lemma CompletedFacts(m: Session, o: Owner, p: Proc, w: World)
    requires SessionValid(m, o) && ProcFacts(m, p, w) && p.pc == Ended(Success)
    ensures var i := m.prompts[p.prompt].invocations[p.seqNo];
            && i.state.Completed? && i.responseID != ""
            && i.alias in m.responses && m.responses[i.alias].completed && m.responses[i.alias].remoteID == i.responseID
  {
    assert PromptValid(m.prompts[p.prompt], p.prompt, m);
    assert InvocationValid(m.prompts[p.prompt].invocations[p.seqNo], p.seqNo, p.prompt, m.prompts[p.prompt].settled, m);
  }

  ghost predicate Frozen(s: System, t: System) {
    && t.up && t.b.poisoned && t.b.stopped && t.b.mem == s.b.mem && t.b.disk == s.b.disk
    && t.b.active.Keys <= s.b.active.Keys
  }

  lemma ProcFrozen(size: Ledger -> nat, s: System, o: Owner, e: ProcEvent)
    requires s.up && s.b.poisoned && s.b.stopped && CanStep(s, o)
    ensures Frozen(s, ProcStep(size, s, o, e))
  {
    hide Commit, CreateIntentChange, CreateResultChange, InferIntentChange, RefusalChange, IdentityChange, CompleteChange, FinishChange,
      AliasValid, FreshAliases;
    forall ordinary, next, io {:trigger Commit(size, s.b, ordinary, next, io)} ensures Commit(size, s.b, ordinary, next, io).0 == s.b {
      PoisonedCommit(size, s.b, ordinary, next, io);
    }
  }

  lemma PoisonedCommit(size: Ledger -> nat, b: Broker, ordinary: bool, next: Result<Ledger, Error>, io: Io)
    requires b.poisoned
    ensures Commit(size, b, ordinary, next, io) == (b, Err(Storage))
  {
  }

  lemma WorkerFrozen(size: Ledger -> nat, s: System, o: Owner, e: WorkerEvent)
    requires s.up && s.b.poisoned && s.b.stopped && o in s.workers && o in s.b.mem.sessions
    ensures Frozen(s, WorkerStep(size, s, o, e))
  {
  }

  lemma ControlFrozen(size: Ledger -> nat, s: System, path: Path, c: Context, io: Io)
    requires s.up && s.b.poisoned && s.b.stopped
    ensures Frozen(s, s.(b := Control(size, s.b, path, c, s.now, io).0))
  {
  }

  lemma ReserveFrozen(size: Ledger -> nat, s: System, c: Context, r: Request, normal: bool, io: Io)
    requires s.up && s.b.poisoned && s.b.stopped
    ensures Frozen(s, ReserveStep(size, s, c, r, normal, io))
  {
    ReserveShape(size, s, c, r, normal, io);
  }

  lemma EventFrozen(size: Ledger -> nat, s: System, e: Event)
    requires s.up && s.b.poisoned && s.b.stopped && !e.Crash?
    ensures Frozen(s, Apply(size, s, e))
  {
    hide ProcStep, LedgerValid, SessionAccepted, WorldOf, ReserveChange, WorkerStep;
    match e
    case ProcMoves(o, step) => if CanStep(s, o) { ProcFrozen(size, s, o, step); }
    case WorkerMoves(o, move) => if o in s.workers && o in s.b.mem.sessions { WorkerFrozen(size, s, o, move); }
    case Controlled(path, c, _, io) => ControlFrozen(size, s, path, c, io);
    case Reserving(c, r, normal, _, io) => ReserveFrozen(size, s, c, r, normal, io);
    case _ =>
  }

  /** A failed write ends the broker: until the process is started again neither ledger changes. */
  lemma {:induction false} StorageFailureAbsorbs(size: Ledger -> nat, s: System, events: seq<Event>)
    requires SystemInv(s) && s.up && s.b.poisoned && Crash !in events
    ensures Frozen(s, Run(size, s, events))
  {
    if events != [] {
      var n := |events| - 1;
      StorageFailureAbsorbs(size, s, events[..n]);
      EventFrozen(size, Run(size, s, events[..n]), events[n]);
    }
  }

  /** Response aliases and provider responses of an owner are in bijection, and calls lead back to their prompt. */
  lemma AliasesExact(size: Ledger -> nat, configDigest: string, now: int, events: seq<Event>, o: Owner, m: Session)
    requires now > 0
    requires var s := Run(size, Initial(configDigest, now), events); Record(s.b.mem, o, m) || Record(s.b.disk, o, m)
    ensures forall a, b :: a in m.responses && b in m.responses && m.responses[a].remoteID == m.responses[b].remoteID ==> a == b
    ensures forall a :: a in m.responses ==> exists q :: Produced(m, m.responses[a].prompt, q, a)
    ensures forall k, q :: HasInvocation(m, k, q) && m.prompts[k].invocations[q].responseID != "" ==>
              var i := m.prompts[k].invocations[q];
              i.alias in m.responses && m.responses[i.alias].remoteID == i.responseID && m.responses[i.alias].prompt == k
  {
    hide Run, Apply, ProcStep, Initial, LedgerValid, RestartStep, Commit, WorldOf;
    Reachable(size, configDigest, now, events);
    RecordNow(Run(size, Initial(configDigest, now), events), o, m);
    forall k, q | HasInvocation(m, k, q) && m.prompts[k].invocations[q].responseID != ""
      ensures var i := m.prompts[k].invocations[q];
              i.alias in m.responses && m.responses[i.alias].remoteID == i.responseID && m.responses[i.alias].prompt == k
    {
      assert PromptValid(m.prompts[k], k, m);
      assert InvocationValid(m.prompts[k].invocations[q], q, k, m.prompts[k].settled, m);
    }
  }

  /** The first retirement of an owner is never refused for the number of its operations. */
  lemma RetirementAlwaysFits(size: Ledger -> nat, configDigest: string, now: int, events: seq<Event>, o: Owner, m: Session, c: Context)
    requires now > 0
    requires var s := Run(size, Initial(configDigest, now), events); Record(s.b.mem, o, m)
    requires forall id :: id in m.operations ==> !m.operations[id].path.Retire?
    ensures RetireChange(m, c).Ok? <==> c.operationID !in m.operations
  {
    hide Run, Apply, Record;
    Reachable(size, configDigest, now, events);
    RecordNow(Run(size, Initial(configDigest, now), events), o, m);
    assert NonRetireOperations(m.operations) == m.operations.Keys;
  }
}
