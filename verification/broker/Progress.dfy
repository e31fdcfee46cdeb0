/**
 Cleanup can always succeed. In a working broker a closed owner without an active request, a pending
 creation or an ambiguous invocation is settled, and retired if it is retiring, by a few explicit
 events of its cleanup worker; in every other case no events of a cleanup worker change anything.
 */
module BrokerProgress {
  import opened Wrappers
  import opened BrokerLedger
  import opened BrokerChanges
  import opened BrokerValidity
  import opened BrokerSystem
  import opened BrokerInvariant
  import opened BrokerCleanup
  import opened BrokerEvents
  import opened BrokerRuns
  import opened BrokerTheorems
  import opened BrokerWrites
  import opened BrokerBytes
  import opened BrokerGrowth
  import opened BrokerCapacity

  // ---------------------------------------------------------------------------
  // What cleanup takes, and what it leads to
  // ---------------------------------------------------------------------------

  predicate Working(s: System) {
    s.up && !s.b.poisoned && !s.b.stopped
  }

  /** The owner has something closed, and nothing that could still arrive unseen. */
  predicate Cleanable(b: Broker, o: Owner) {
    && o in b.mem.sessions && o !in b.active
    && var m := b.mem.sessions[o];
       && !m.retired && !m.createState.CreateIntent? && !SessionAmbiguous(m)
       && (ClosingPrompts(m) != {} || m.retiring)
  }

  /** The proof a cleanup attempt for this record gathers. */
  function KindFor(k: Worker): Kind {
    if MayDelete(k) then DeletedGone
    else if MustStop(k) then StopIdle
    else if RestsQuiet(k) then Quiescent
    else NeverCreated
  }

  function CleanedRecord(m: Session, now: int): Result<Session, Error> {
    CleanupChange(m, ClosingPrompts(m), m.retiring, m.createState.Known?, KindFor(Capture(m)), m.remoteID, now)
  }

  /** The ledger with this owner cleaned up. */
  function CleanedLedger(b: Broker, o: Owner, now: int): Ledger
    requires o in b.mem.sessions
  {
    var r := CleanedRecord(b.mem.sessions[o], now);
    if r.Ok? then PutSession(b.mem, o, r.value) else b.mem
  }

  /** Every closed prompt is settled, the owner is retired if it is retiring, and nothing else has changed. */
  ghost predicate CleanedUp(s: System, t: System, o: Owner)
    requires o in s.b.mem.sessions
  {
    && t.up && !t.b.poisoned && t.b.mem == t.b.disk && o !in t.workers
    && t.b.mem.sessions.Keys == s.b.mem.sessions.Keys
    && (forall x :: x in s.b.mem.sessions && x != o ==> t.b.mem.sessions[x] == s.b.mem.sessions[x])
    && var m, n := s.b.mem.sessions[o], t.b.mem.sessions[o];
       && n.prompts.Keys == m.prompts.Keys
       && (forall k :: k in m.prompts ==>
             if m.prompts[k].closing then n.prompts[k].settled else n.prompts[k] == m.prompts[k])
       && (n.retired <==> m.retiring)
  }

  // ---------------------------------------------------------------------------
  // The events
  // ---------------------------------------------------------------------------

  /** An attempt that is under way for the owner is given up first. */
  function GiveUp(s: System, o: Owner): seq<Event> {
    if o in s.workers then [WorkerMoves(o, AbandonCleanup)] else []
  }

  /** What the remote service has to answer. */
  function Gather(k: Worker, o: Owner): seq<Event> {
    if MayDelete(k) then [WorkerMoves(o, DeleteSent), WorkerMoves(o, DeleteConfirmed)]
    else if MustStop(k) then [WorkerMoves(o, StopConfirmed)]
    else [WorkerMoves(o, NothingToStop)]
  }

  /** The attempt up to its commit. */
  function Attempt(s: System, o: Owner): seq<Event>
    requires o in s.b.mem.sessions
  {
    GiveUp(s, o) + [Capturing(o)] + Gather(Capture(s.b.mem.sessions[o]), o)
  }

  function CleanupPlan(s: System, o: Owner): seq<Event>
    requires o in s.b.mem.sessions
  {
    Attempt(s, o) + [WorkerMoves(o, CommitCleanup(Saved))]
  }

  predicate OfWorker(e: Event, o: Owner) {
    e == Capturing(o) || (e.WorkerMoves? && e.owner == o)
  }

  predicate AllOfWorker(events: seq<Event>, o: Owner) {
    forall i :: 0 <= i < |events| ==> OfWorker(events[i], o)
  }

  lemma {:induction false} RunMore(size: Ledger -> nat, s: System, events: seq<Event>, more: seq<Event>)
    ensures Run(size, s, events + more) == Run(size, Run(size, s, events), more)
  {
    hide Apply;
    if more == [] {
      assert events + more == events;
    } else {
      var last := |more| - 1;
      assert (events + more)[..|events + more| - 1] == events + more[..last];
      RunMore(size, s, events, more[..last]);
    }
  }

  lemma RunOne(size: Ledger -> nat, s: System, e: Event)
    ensures Run(size, s, [e]) == Apply(size, s, e)
  {
    hide Apply;
    assert [e][..0] == [];
    assert Run(size, s, []) == s;
  }

  lemma RunTwo(size: Ledger -> nat, s: System, e: Event, f: Event)
    ensures Run(size, s, [e, f]) == Apply(size, Apply(size, s, e), f)
  {
    hide Apply;
    assert [e] + [f] == [e, f];
    RunMore(size, s, [e], [f]);
    RunOne(size, s, e);
    RunOne(size, Apply(size, s, e), f);
  }

  // ---------------------------------------------------------------------------
  // An attempt, step by step
  // ---------------------------------------------------------------------------

  /** The broker is as it was, and the owner's worker is as given. */
  predicate At(s: System, t: System, o: Owner, worker: Option<Worker>) {
    && t.b == s.b && t.up == s.up && t.now == s.now
    && (if worker.Some? then o in t.workers && t.workers[o] == worker.value else o !in t.workers)
  }

  lemma GivenUp(size: Ledger -> nat, s: System, o: Owner)
    requires s.up && o in s.b.mem.sessions
    ensures At(s, Run(size, s, GiveUp(s, o)), o, None)
  {
    if o in s.workers { RunOne(size, s, WorkerMoves(o, AbandonCleanup)); }
  }

  lemma Captures(size: Ledger -> nat, s: System, t: System, o: Owner)
    requires Working(s) && Cleanable(s.b, o) && At(s, t, o, None)
    ensures At(s, Apply(size, t, Capturing(o)), o, Some(Capture(s.b.mem.sessions[o])))
  {
  }

  lemma WorkerMoved(size: Ledger -> nat, t: System, o: Owner, e: WorkerEvent)
    requires t.up && o in t.workers && o in t.b.mem.sessions
    ensures Apply(size, t, WorkerMoves(o, e)) == WorkerStep(size, t, o, e)
  {
  }

  lemma DeletionGathers(size: Ledger -> nat, s: System, t: System, o: Owner, k: Worker)
    requires s.up && o in s.b.mem.sessions && At(s, t, o, Some(k)) && k.stage.Captured? && MayDelete(k)
    ensures At(s, Run(size, t, Gather(k, o)), o, Some(k.(stage := Evidence(DeletedGone))))
  {
    hide Quieted, Apply, Run;
    var u := Apply(size, t, WorkerMoves(o, DeleteSent));
    RunTwo(size, t, WorkerMoves(o, DeleteSent), WorkerMoves(o, DeleteConfirmed));
    WorkerMoved(size, t, o, DeleteSent);
    WorkerMoved(size, u, o, DeleteConfirmed);
  }

  lemma StopGathers(size: Ledger -> nat, s: System, t: System, o: Owner, k: Worker)
    requires s.up && o in s.b.mem.sessions && At(s, t, o, Some(k)) && k.stage.Captured? && MustStop(k) && !k.ambiguous
    ensures At(s, Run(size, t, Gather(k, o)), o, Some(k.(stage := Evidence(StopIdle))))
  {
    hide Quieted, Apply, Run;
    RunOne(size, t, WorkerMoves(o, StopConfirmed));
    WorkerMoved(size, t, o, StopConfirmed);
  }

  lemma RestGathers(size: Ledger -> nat, s: System, t: System, o: Owner, k: Worker)
    requires s.up && o in s.b.mem.sessions && At(s, t, o, Some(k)) && k.stage.Captured? && !k.ambiguous
    requires !MayDelete(k) && !MustStop(k)
    ensures At(s, Run(size, t, Gather(k, o)), o, Some(k.(stage := Evidence(if RestsQuiet(k) then Quiescent else NeverCreated))))
  {
    hide Quieted, Apply, Run;
    RunOne(size, t, WorkerMoves(o, NothingToStop));
    WorkerMoved(size, t, o, NothingToStop);
  }

  lemma Gathers(size: Ledger -> nat, s: System, t: System, o: Owner, k: Worker)
    requires s.up && o in s.b.mem.sessions && At(s, t, o, Some(k)) && k.stage.Captured? && !k.ambiguous
    ensures At(s, Run(size, t, Gather(k, o)), o, Some(k.(stage := Evidence(KindFor(k)))))
  {
    hide Apply, Run, At, Gather;
    if MayDelete(k) {
      DeletionGathers(size, s, t, o, k);
    } else if MustStop(k) {
      StopGathers(size, s, t, o, k);
    } else {
      RestGathers(size, s, t, o, k);
    }
  }

  lemma Attempted(size: Ledger -> nat, s: System, o: Owner)
    requires Working(s) && Cleanable(s.b, o)
    ensures var k := Capture(s.b.mem.sessions[o]);
            At(s, Run(size, s, Attempt(s, o)), o, Some(k.(stage := Evidence(KindFor(k)))))
  {
    hide Apply, SessionAmbiguous, ClosingPrompts, ClosingQuiet, Gather;
    var t := Run(size, s, GiveUp(s, o));
    GivenUp(size, s, o);
    Captures(size, s, t, o);
    RunOne(size, t, Capturing(o));
    RunMore(size, s, GiveUp(s, o), [Capturing(o)]);
    var u := Run(size, s, GiveUp(s, o) + [Capturing(o)]);
    Gathers(size, s, u, o, Capture(s.b.mem.sessions[o]));
    RunMore(size, s, GiveUp(s, o) + [Capturing(o)], Gather(Capture(s.b.mem.sessions[o]), o));
  }

  /** Everything closed is settled; a retiring owner has nothing open left, so it is retired. */
  lemma RecordCleaned(m: Session, o: Owner, now: int)
    requires SessionValid(m, o) && !m.retired
    ensures CleanedRecord(m, now).Ok?
    ensures var n := CleanedRecord(m, now).value;
            && n.prompts.Keys == m.prompts.Keys && (n.retired <==> m.retiring)
            && forall k :: k in m.prompts ==>
                 if m.prompts[k].closing then n.prompts[k].settled else n.prompts[k] == m.prompts[k]
  {
    hide KindFor, InvocationValid, LinksExact, LastSequenceValid, LastAliasValid, PromptIdentityValid;
    forall k | k in m.prompts && m.retiring ensures m.prompts[k].closing {
      assert PromptValid(m.prompts[k], k, m);
    }
  }

  lemma SavedCommit(size: Ledger -> nat, b: Broker, o: Owner, next: Session)
    requires !b.poisoned && size(PutSession(b.mem, o, next)) <= MAX_LEDGER_BYTES
    ensures var l := PutSession(b.mem, o, next);
            CommitSession(size, b, false, o, Ok(next), Saved).0 == b.(mem := l, disk := l)
  {
  }

  lemma CleanupLands(size: Ledger -> nat, s: System, t: System, o: Owner)
    requires RunInv(s) && Working(s) && Cleanable(s.b, o) && size(CleanedLedger(s.b, o, s.now)) <= MAX_LEDGER_BYTES
    requires var k := Capture(s.b.mem.sessions[o]); At(s, t, o, Some(k.(stage := Evidence(KindFor(k)))))
    ensures var u := Apply(size, t, WorkerMoves(o, CommitCleanup(Saved)));
            CleanedUp(s, u, o) && u.b.mem == CleanedLedger(s.b, o, s.now)
  {
    hide Apply, CommitSession, CleanupChange, KindFor, SystemInv, SessionSound, SessionAmbiguous, ClosingPrompts, ClosingQuiet, SessionShapeValid, PromptValid, PromptIdentityValid, SessionValid, CreationValid, LinksExact, OwnerInv;
    var m := s.b.mem.sessions[o];
    RecordNow(s, o, m);
    SoundRecord(m, o);
    RecordCleaned(m, o, s.now);
    SavedCommit(size, t.b, o, CleanedRecord(m, s.now).value);
    WorkerMoved(size, t, o, CommitCleanup(Saved));
  }

  lemma SoundRecord(m: Session, o: Owner)
    requires SessionSound(m, o)
    ensures SessionValid(m, o)
  {
  }

  lemma PlanOfWorker(s: System, o: Owner)
    requires o in s.b.mem.sessions
    ensures AllOfWorker(CleanupPlan(s, o), o)
  {
  }

  /** The plan of a cleanable owner cleans it up, if the ledger it leads to fits. */
  lemma CleanupSucceeds(size: Ledger -> nat, s: System, o: Owner)
    requires RunInv(s) && Working(s) && Cleanable(s.b, o) && size(CleanedLedger(s.b, o, s.now)) <= MAX_LEDGER_BYTES
    ensures AllOfWorker(CleanupPlan(s, o), o) && CleanedUp(s, Run(size, s, CleanupPlan(s, o)), o)
  {
    hide Apply, RunInv, Cleanable, Working, CleanedLedger, CleanedUp, Attempt;
    CleanableKnown(s.b, o);
    var t := Run(size, s, Attempt(s, o));
    PlanOfWorker(s, o);
    Attempted(size, s, o);
    CleanupLands(size, s, t, o);
    RunMore(size, s, Attempt(s, o), [WorkerMoves(o, CommitCleanup(Saved))]);
    RunOne(size, t, WorkerMoves(o, CommitCleanup(Saved)));
  }

  // ---------------------------------------------------------------------------
  // When there is nothing to be done
  // ---------------------------------------------------------------------------

  /** Without a cleanable owner no attempt of its worker has evidence, and none can get any. */
  lemma NothingGathered(s: System, o: Owner)
    requires SystemInv(s) && s.up && o in s.workers && !Cleanable(s.b, o)
    ensures !s.workers[o].stage.Evidence?
  {
    hide SessionSound, SessionWorld;
    assert OwnerInv(s, o);
    WorkerNow(s, o);
  }

  lemma IdleStep(size: Ledger -> nat, s: System, o: Owner, e: Event)
    requires SystemInv(s) && s.up && !Cleanable(s.b, o) && OfWorker(e, o)
    ensures Apply(size, s, e).b == s.b && Apply(size, s, e).up
  {
    hide SystemInv, Cleanable, CommitSession, Quieted, RestartStep, Expired, MayDelete, ControlOrdinary, LedgerValid, ReserveBytes, Reopen, ControlNext, SessionAccepted, ProcStep;
    if e.WorkerMoves? && o in s.workers { NothingGathered(s, o); }
  }

  /** As long as its owner is not cleanable, a cleanup worker changes neither ledger. */
  lemma {:induction false} CleanupIdle(size: Ledger -> nat, s: System, events: seq<Event>, o: Owner)
    requires RunInv(s) && s.up && !Cleanable(s.b, o) && AllOfWorker(events, o)
    ensures Run(size, s, events).b == s.b && Run(size, s, events).up
  {
    hide Apply, SystemInv, Cleanable;
    if events != [] {
      var last := |events| - 1;
      CleanupIdle(size, s, events[..last], o);
      RunKeeps(size, s, events[..last]);
      IdleStep(size, Run(size, s, events[..last]), o, events[last]);
    }
  }

  ghost predicate SomeCleanup(size: Ledger -> nat, s: System, o: Owner) {
    exists events :: AllOfWorker(events, o) && Run(size, s, events).b.disk != s.b.disk
  }

  lemma CleanedDiffers(s: System, t: System, o: Owner)
    requires RunInv(s) && Working(s) && Cleanable(s.b, o) && CleanedUp(s, t, o)
    ensures t.b.disk != s.b.disk
  {
    hide SessionAmbiguous, OwnersInv;
  }

  /**
   In a working broker whose ledger has room for it, some events of a cleanup worker change what is on
   disk exactly when the owner is cleanable; the plan then settles everything closed and retires the
   owner if it is retiring.
   */
  lemma CleanupExactly(size: Ledger -> nat, s: System, o: Owner)
    requires RunInv(s) && Working(s)
    requires o in s.b.mem.sessions ==> size(CleanedLedger(s.b, o, s.now)) <= MAX_LEDGER_BYTES
    ensures SomeCleanup(size, s, o) <==> Cleanable(s.b, o)
    ensures Cleanable(s.b, o) ==> CleanedUp(s, Run(size, s, CleanupPlan(s, o)), o)
  {
    hide Apply, RunInv, Cleanable, CleanedUp, CleanedLedger, CleanupPlan, Run;
    if Cleanable(s.b, o) {
      CleanableKnown(s.b, o);
      CleanupSucceeds(size, s, o);
      CleanedDiffers(s, Run(size, s, CleanupPlan(s, o)), o);
    } else {
      forall events | AllOfWorker(events, o) ensures Run(size, s, events).b.disk == s.b.disk {
        CleanupIdle(size, s, events, o);
      }
    }
  }

  lemma CleanableKnown(b: Broker, o: Owner)
    requires Cleanable(b, o)
    ensures o in b.mem.sessions
  {
  }

  // ---------------------------------------------------------------------------
  // Room for it
  // ---------------------------------------------------------------------------

  lemma {:induction false} DisciplinedMore(size: Ledger -> nat, s: System, events: seq<Event>, more: seq<Event>, b: Budget, o: Owner)
    requires DisciplinedRun(size, s, events, b) && AllOfWorker(more, o)
    ensures DisciplinedRun(size, s, events + more, b)
  {
    hide Apply, Run, NextBudget;
    if more == [] {
      assert events + more == events;
    } else {
      var last := |more| - 1;
      assert (events + more)[..|events + more| - 1] == events + more[..last];
      DisciplinedMore(size, s, events, more[..last], b, o);
      assert OfWorker(more[last], o);
    }
  }

  /** The commit of the plan asks for the cleaned ledger. */
  lemma AsksForCleaned(s: System, t: System, o: Owner)
    requires RunInv(s) && Working(s) && Cleanable(s.b, o)
    requires var k := Capture(s.b.mem.sessions[o]); At(s, t, o, Some(k.(stage := Evidence(KindFor(k)))))
    ensures var e := WorkerMoves(o, CommitCleanup(Saved));
            Writes(t, e, CleanedLedger(s.b, o, s.now)) && !Ordinary(t, e) && t.b.mem == t.b.disk
  {
    hide CleanupChange, KindFor, SessionSound, SessionAmbiguous, ClosingPrompts, ClosingQuiet;
    var m := s.b.mem.sessions[o];
    RecordNow(s, o, m);
    SoundRecord(m, o);
    RecordCleaned(m, o, s.now);
  }

  lemma CleanedFits(e: Encoding, configDigest: string, now: int, events: seq<Event>, o: Owner)
    requires now > 0 && DisciplinedRun(SizeOf(e), Initial(configDigest, now), events, NO_BUDGET)
    requires var s := Run(SizeOf(e), Initial(configDigest, now), events); Working(s) && Cleanable(s.b, o)
    ensures var s := Run(SizeOf(e), Initial(configDigest, now), events);
            LedgerBytes(e, CleanedLedger(s.b, o, s.now)) <= MAX_LEDGER_BYTES
  {
    hide Apply, RunInv, Working, CleanedLedger, Attempt, LedgerBytes, DisciplinedRun, Writes, Capture, KindFor, Run, AllOfWorker;
    var size, s0 := SizeOf(e), Initial(configDigest, now);
    var s := Run(size, s0, events);
    var attempt, last := Attempt(s, o), WorkerMoves(o, CommitCleanup(Saved));
    Reachable(size, configDigest, now, events);
    Attempted(size, s, o);
    RunMore(size, s0, events, attempt);
    AsksForCleaned(s, Run(size, s, attempt), o);
    PlanOfWorker(s, o);
    assert events + attempt + [last] == events + CleanupPlan(s, o);
    DisciplinedMore(size, s0, events, CleanupPlan(s, o), NO_BUDGET, o);
    ReserveSuffices(e, configDigest, now, events + attempt, last, CleanedLedger(s.b, o, s.now));
  }

  /**
   In every disciplined run from an empty store the reserve has the room: whenever an owner is cleanable in
   a working broker, the plan cleans it up.
   */
  lemma CleanupAlwaysSucceeds(e: Encoding, configDigest: string, now: int, events: seq<Event>, o: Owner)
    requires now > 0 && DisciplinedRun(SizeOf(e), Initial(configDigest, now), events, NO_BUDGET)
    requires var s := Run(SizeOf(e), Initial(configDigest, now), events); Working(s) && Cleanable(s.b, o)
    ensures var s := Run(SizeOf(e), Initial(configDigest, now), events);
            CleanedUp(s, Run(SizeOf(e), s, CleanupPlan(s, o)), o)
  {
    hide Apply, RunInv, Working, CleanedLedger, LedgerBytes, DisciplinedRun, Run, CleanedUp, CleanupPlan;
    var s := Run(SizeOf(e), Initial(configDigest, now), events);
    Reachable(SizeOf(e), configDigest, now, events);
    CleanedFits(e, configDigest, now, events, o);
    CleanupSucceeds(SizeOf(e), s, o);
  }
}
