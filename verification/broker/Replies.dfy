/** What the broker tells its caller about one owner, and why the caller may rely on it. */
module BrokerReplies {
  import opened Wrappers
  import opened BrokerLedger
  import opened BrokerChanges
  import opened BrokerValidity
  import opened BrokerSystem
  import opened BrokerInvariant
  import opened BrokerSteps
  import opened BrokerMoves
  import opened BrokerRequests
  import opened BrokerEvents
  import opened BrokerRuns
  import opened BrokerTheorems
  import opened BrokerWrites
  import opened BrokerAuthority

  datatype ReplyState = Open | Settling | SettledState | Retiring | RetiredState | Blocked

  datatype Reply = Reply(
    state: ReplyState,
    createPending: bool,
    remoteSessionCreated: bool,
    activeInvocations: nat,
    ambiguousInvocations: nat,
    settlementProven: bool,
    retirementProven: bool,
    proof: Option<Proof>,
    leaseGeneration: nat,
    leaseExpires: int)

  const NO_REPLY := Reply(Open, false, false, 0, 0, false, false, None, 0, ZERO_TIME)

  // A context without a prompt asks about all of them.
  predicate AsksAbout(c: Context, k: PromptKey) {
    c.prompt.promptID == "" || k == c.prompt
  }

  predicate Running(b: Broker, o: Owner, k: PromptKey, p: Prompt, i: Invocation) {
    o in b.active && b.active[o] == k && i.sequence == p.lastSequence
  }

  predicate CountsAmbiguous(b: Broker, o: Owner, k: PromptKey, p: Prompt, i: Invocation) {
    i.state.Uncertain? || (i.state.Intent? && !Running(b, o, k, p, i))
  }

  predicate CountsActive(b: Broker, o: Owner, k: PromptKey, p: Prompt, i: Invocation) {
    (i.state.Intent? && Running(b, o, k, p, i)) || ((i.state.Accepted? || i.state.Reserved?) && !p.settled)
  }

  function AmbiguousOnes(b: Broker, o: Owner, s: Session, c: Context): set<(PromptKey, nat)> {
    set k, q | k in s.prompts && q in s.prompts[k].invocations && AsksAbout(c, k)
               && CountsAmbiguous(b, o, k, s.prompts[k], s.prompts[k].invocations[q]) :: (k, q)
  }

  function ActiveOnes(b: Broker, o: Owner, s: Session, c: Context): set<(PromptKey, nat)> {
    set k, q | k in s.prompts && q in s.prompts[k].invocations && AsksAbout(c, k)
               && CountsActive(b, o, k, s.prompts[k], s.prompts[k].invocations[q]) :: (k, q)
  }

  function OwnerReply(s: Session): Reply {
    NO_REPLY.(
      createPending := s.createState.CreateIntent?,
      remoteSessionCreated := s.createState.Known? || s.createState.Deleted?,
      retirementProven := s.retired,
      settlementProven := s.retired,
      state := if s.retired then RetiredState else if s.retiring then Retiring else Open,
      proof := if s.retired then s.proof else None)
  }

  function PromptReply(r: Reply, p: Prompt): Reply {
    r.(leaseGeneration := p.leaseGeneration, leaseExpires := p.leaseExpires, settlementProven := p.settled,
       state := if p.settled then SettledState else if p.closing then Settling else r.state,
       proof := if p.settled then p.proof else r.proof)
  }

  function BlockedReply(r: Reply): Reply {
    if r.createPending || r.ambiguousInvocations > 0
    then r.(state := Blocked, settlementProven := false, retirementProven := false, proof := None) else r
  }

  function ControlReply(b: Broker, c: Context): Reply {
    if c.owner !in b.mem.sessions then NO_REPLY
    else
      var s := b.mem.sessions[c.owner];
      var r := OwnerReply(s);
      var r1 := if c.prompt.promptID != "" && c.prompt in s.prompts then PromptReply(r, s.prompts[c.prompt]) else r;
      BlockedReply(r1.(activeInvocations := |ActiveOnes(b, c.owner, s, c)|,
                       ambiguousInvocations := |AmbiguousOnes(b, c.owner, s, c)|))
  }

  predicate CreatesUnderLease(b: Broker, c: Context, s: Session, p: Prompt, now: int) {
    && s.createState.CreateIntent? && !s.retiring && !s.retired && s.current == Some(c.prompt)
    && !p.closing && !p.settled && p.leaseGeneration == c.leaseGeneration && p.leaseExpires == c.leaseExpires
    && p.leaseExpires > now
    && c.owner in b.active && b.active[c.owner] == c.prompt && |p.invocations| == 1
    && p.lastSequence in p.invocations && p.invocations[p.lastSequence].state.Reserved?
  }

  /** A renewal may be acknowledged while its own request is still creating the session. */
  predicate MayAcknowledgeRenewal(b: Broker, c: Context, r: Reply, now: int) {
    && !b.stopped && !b.poisoned && r.state.Blocked? && r.createPending
    && r.ambiguousInvocations == 0 && r.activeInvocations == 1 && r.leaseGeneration == c.leaseGeneration
    && c.owner in b.mem.sessions && c.prompt in b.mem.sessions[c.owner].prompts
    && CreatesUnderLease(b, c, b.mem.sessions[c.owner], b.mem.sessions[c.owner].prompts[c.prompt], now)
  }

  // ---------------------------------------------------------------------------
  // What a reply proves
  // ---------------------------------------------------------------------------

  /** A settled prompt has no ambiguous invocation. */
  lemma SettledUnambiguous(b: Broker, o: Owner, m: Session, k: PromptKey, q: nat)
    requires SessionValid(m, o) && HasInvocation(m, k, q) && m.prompts[k].settled
    ensures !CountsAmbiguous(b, o, k, m.prompts[k], m.prompts[k].invocations[q])
  {
    assert PromptValid(m.prompts[k], k, m);
    assert InvocationValid(m.prompts[k].invocations[q], q, k, true, m);
  }

  predicate Finished(m: Session, c: Context) {
    if c.prompt.promptID != "" && c.prompt in m.prompts then m.prompts[c.prompt].settled else m.retired
  }

  lemma FinishedUnambiguous(b: Broker, c: Context, m: Session)
    requires SessionValid(m, c.owner) && Finished(m, c)
    ensures AmbiguousOnes(b, c.owner, m, c) == {}
  {
    forall k, q | HasInvocation(m, k, q) && AsksAbout(c, k)
      ensures !CountsAmbiguous(b, c.owner, k, m.prompts[k], m.prompts[k].invocations[q])
    {
      assert PromptValid(m.prompts[k], k, m);
      SettledUnambiguous(b, c.owner, m, k, q);
    }
  }

  /** Exactly when settlement and retirement are reported as proven. */
  lemma ReplyExact(b: Broker, c: Context, m: Session)
    requires c.owner in b.mem.sessions && m == b.mem.sessions[c.owner] && SessionValid(m, c.owner)
    ensures ControlReply(b, c).settlementProven <==> !m.createState.CreateIntent? && Finished(m, c)
    ensures ControlReply(b, c).retirementProven <==> m.retired
    ensures ControlReply(b, c).state.Blocked? <==> m.createState.CreateIntent? || AmbiguousOnes(b, c.owner, m, c) != {}
  {
    hide SessionValid, PromptValid, PromptIdentityValid, AmbiguousOnes, CreationValid, Running, Produced, LastAliasValid, LastSequenceValid, ActiveOnes;
    if Finished(m, c) {
      FinishedUnambiguous(b, c, m);
    }
    if m.retired {
      RetiredFinished(m, c);
      FinishedUnambiguous(b, c, m);
    }
  }

  lemma RetiredFinished(m: Session, c: Context)
    requires SessionValid(m, c.owner) && m.retired
    ensures Finished(m, c) && !m.createState.CreateIntent?
  {
    assert forall k :: k in m.prompts ==> PromptValid(m.prompts[k], k, m);
  }

  /**
   When a working broker reports settlement, every inference it ever sent for the prompt is done
   with, on disk; when it reports retirement, so is everything it did for the owner.
   */
  lemma ReplySound(size: Ledger -> nat, configDigest: string, now: int, events: seq<Event>, c: Context)
    requires now > 0
    requires var s := Run(size, Initial(configDigest, now), events);
             s.up && !s.b.poisoned && c.owner in s.b.disk.sessions
    ensures var s := Run(size, Initial(configDigest, now), events);
            var m, w, r := s.b.disk.sessions[c.owner], WorldOf(s, c.owner), ControlReply(s.b, c);
            && (r.settlementProven && c.prompt in m.prompts && c.prompt.promptID != "" ==>
                  m.prompts[c.prompt].settled && AllHarmless(m, w, c.prompt))
            && (r.settlementProven && c.prompt.promptID == "" ==> m.retired)
            && (r.retirementProven ==>
                  m.retired && CreationClosed(m, w) && forall k :: k in m.prompts ==> AllHarmless(m, w, k))
  {
    hide Run;
    var s := Run(size, Initial(configDigest, now), events);
    Reachable(size, configDigest, now, events);
    var m, w := s.b.disk.sessions[c.owner], WorldOf(s, c.owner);
    RecordNow(s, c.owner, m);
    ReplyExact(s.b, c, m);
    if c.prompt in m.prompts && m.prompts[c.prompt].settled { SettledHarmless(m, c.owner, w, c.prompt); }
    if m.retired { RetiredClosed(m, c.owner, w); }
  }

  // ---------------------------------------------------------------------------
  // Uncertain acceptance is never resolved
  // ---------------------------------------------------------------------------

  predicate UncertainAt(m: Session, k: PromptKey, q: nat) {
    HasInvocation(m, k, q) && m.prompts[k].invocations[q].state.Uncertain?
  }

  /**
   Prompt `k` is not settled, its owner is not retired and has no other open prompt, and every
   reply about it is blocked.
   */
  ghost predicate BlockedAt(t: System, o: Owner, k: PromptKey) {
    && o in t.b.disk.sessions
    && var m := t.b.disk.sessions[o];
       && k in m.prompts && !m.prompts[k].settled && !m.retired && m.current == Some(k)
       && (t.up && !t.b.poisoned ==>
             forall c: Context {:trigger ControlReply(t.b, c)} :: c.owner == o && AsksAbout(c, k) ==>
               ControlReply(t.b, c).state.Blocked?
               && !ControlReply(t.b, c).settlementProven && !ControlReply(t.b, c).retirementProven)
  }

  lemma UncertainStays(m: Session, n: Session, k: PromptKey, q: nat)
    requires SessionAdvances(m, n) && UncertainAt(m, k, q)
    ensures UncertainAt(n, k, q)
  {
    assert PromptAdvances(m.prompts[k], n.prompts[k]);
    assert InvocationAdvances(m.prompts[k].invocations[q], n.prompts[k].invocations[q]);
  }

  lemma UnsettledBlocks(m: Session, o: Owner, k: PromptKey, q: nat)
    requires SessionValid(m, o) && (UncertainAt(m, k, q) || IntentAt(m, k, q))
    ensures !m.prompts[k].settled && !m.retired && m.current == Some(k) && SessionAmbiguous(m)
  {
    assert PromptValid(m.prompts[k], k, m);
    assert InvocationValid(m.prompts[k].invocations[q], q, k, m.prompts[k].settled, m);
    assert AmbiguousInvocation(m.prompts[k].invocations[q]);
  }

  lemma CountedReply(b: Broker, c: Context, m: Session, k: PromptKey, q: nat)
    requires c.owner in b.mem.sessions && m == b.mem.sessions[c.owner]
    requires HasInvocation(m, k, q) && CountsAmbiguous(b, c.owner, k, m.prompts[k], m.prompts[k].invocations[q]) && AsksAbout(c, k)
    ensures ControlReply(b, c).state.Blocked? && !ControlReply(b, c).settlementProven && !ControlReply(b, c).retirementProven
  {
    assert (k, q) in AmbiguousOnes(b, c.owner, m, c);
  }

  lemma CountedBlocks(t: System, o: Owner, k: PromptKey, q: nat)
    requires RunInv(t) && o in t.b.disk.sessions
    requires var m := t.b.disk.sessions[o];
             && (UncertainAt(m, k, q) || IntentAt(m, k, q))
             && (t.up && !t.b.poisoned ==> CountsAmbiguous(t.b, o, k, m.prompts[k], m.prompts[k].invocations[q]))
    ensures BlockedAt(t, o, k)
  {
    hide CountsAmbiguous, ControlReply, SystemInv, HasInvocation;
    var m := t.b.disk.sessions[o];
    RecordNow(t, o, m);
    UnsettledBlocks(m, o, k, q);
    if t.up && !t.b.poisoned {
      UpReads(t);
      forall c: Context {:trigger ControlReply(t.b, c)} | c.owner == o && AsksAbout(c, k)
        ensures ControlReply(t.b, c).state.Blocked?
                && !ControlReply(t.b, c).settlementProven && !ControlReply(t.b, c).retirementProven
      {
        CountedReply(t.b, c, m, k, q);
      }
    }
  }

  lemma UpReads(t: System)
    requires SystemInv(t) && t.up && !t.b.poisoned
    ensures t.b.mem == t.b.disk
  {
  }

  /**
   Once an invocation is durably uncertain, then after any further events, crashes and restarts
   included, it is still uncertain and blocks its prompt and its owner.
   */
  lemma UncertainForever(size: Ledger -> nat, s: System, events: seq<Event>, o: Owner, k: PromptKey, q: nat)
    requires RunInv(s) && o in s.b.disk.sessions && UncertainAt(s.b.disk.sessions[o], k, q)
    ensures var t := Run(size, s, events);
            BlockedAt(t, o, k) && UncertainAt(t.b.disk.sessions[o], k, q)
  {
    hide Apply, SystemInv;
    var t := Run(size, s, events);
    RunKeeps(size, s, events);
    var m, n := s.b.disk.sessions[o], t.b.disk.sessions[o];
    assert Record(s.b.disk, o, m) && Record(t.b.disk, o, n);
    UncertainStays(m, n, k, q);
    CountedBlocks(t, o, k, q);
  }

  /** Invocations stay as they are, except one. */
  ghost predicate OthersSame(m: Session, n: Session, but: Option<InferKey>) {
    forall k, q :: HasInvocation(m, k, q) && Some(InferKey(k, q)) != but ==>
      HasInvocation(n, k, q) && n.prompts[k].invocations[q] == m.prompts[k].invocations[q]
  }

  lemma NewSequence(m: Session, o: Owner, k: PromptKey, q: nat)
    requires SessionValid(m, o) && k in m.prompts && q > m.prompts[k].lastSequence
    ensures q !in m.prompts[k].invocations
  {
    assert PromptValid(m.prompts[k], k, m);
  }

  lemma AddedSame(m: Session, c: Context)
    requires c.prompt in m.prompts && c.sequence !in m.prompts[c.prompt].invocations
    ensures OthersSame(m, PutPrompt(m, c.prompt, ReservedPrompt(m.prompts[c.prompt], c)), None)
  {
  }

  lemma EnsureSame(m: Session, c: Context)
    requires EnsurePrompt(m, c).Ok?
    ensures var n := EnsurePrompt(m, c).value;
            OthersSame(m, n, None) && (c.prompt in m.prompts || n.prompts[c.prompt].invocations == map[])
    ensures c.prompt in m.prompts ==> EnsurePrompt(m, c).value == m
  {
  }

  lemma ControlSame(m: Session, path: Path, c: Context, now: int)
    requires !path.Responses? && ControlChange(m, path, c, now).Ok?
    ensures OthersSame(m, ControlChange(m, path, c, now).value, None)
  {
    hide EnsurePrompt;
    if path.Renew? { RenewStages(m, c, now); }
    if !path.Retire? { EnsureSame(RecordOperation(m, path, c).value.0, c); }
  }

  lemma ReserveSameOthers(m: Session, c: Context, r: Request, normal: bool, now: int, o: Owner)
    requires SessionValid(m, o) && ReserveChange(m, c, r, normal, now).Ok?
    ensures OthersSame(m, ReserveChange(m, c, r, normal, now).value.0, None)
  {
    hide ReserveChange, EnsurePrompt, SessionValid, TranslatePrevious, ReservedPrompt;
    ReserveStages(m, c, r, normal, now);
    var s1 := RecordOperation(m, Responses, c).value.0;
    EnsureSame(s1, c);
    if c.prompt in m.prompts { NewSequence(m, o, c.prompt, c.sequence); }
    AddedSame(EnsurePrompt(s1, c).value, c);
  }

  lemma ProcSame(s: System, o: Owner, e: ProcEvent)
    requires CanStep(s, o) && ProcNext(s, o, e).Some? && ProcNext(s, o, e).value.Ok?
    ensures OthersSame(s.b.mem.sessions[o], ProcNext(s, o, e).value.value, Some(KeyOf(s.procs[o])))
  {
    hide ProcNext;
    ProcOnly(s, o, e);
  }

  lemma ClosingSame(s: System, e: Event, l: Ledger, o: Owner, n: Session)
    requires Writes(s, e, l) && (e.Restart? || e.Sweeping? || e.Disconnected? || e.Pinning?) && o in s.b.mem.sessions && Record(l, o, n)
    ensures OthersSame(s.b.mem.sessions[o], n, None)
  {
    hide ParsedContext;
  }

  /** No request in flight is that of the invocation. */
  predicate Unrequested(s: System, o: Owner, k: PromptKey, q: nat) {
    o in s.procs ==> KeyOf(s.procs[o]) != InferKey(k, q)
  }

  /** An intent without its request stays as it is, whatever is written. */
  lemma IntentKept(s: System, e: Event, l: Ledger, o: Owner, n: Session, k: PromptKey, q: nat)
    requires SystemInv(s) && Writes(s, e, l) && o in s.b.mem.sessions && Record(l, o, n)
    requires IntentAt(s.b.mem.sessions[o], k, q) && Unrequested(s, o, k, q)
    ensures IntentAt(n, k, q)
  {
    hide SystemInv, ControlChange, ReserveChange, ProcNext, SessionSound, ParsedContext, SessionWorld, Recovered, Swept, Disconnect, WorkerNext, HasInvocation, PromptValid, SessionValid, PromptIdentityValid, InferAccounted, InfersAccounted, SideInv, InvocationValid, ProcessInv;
    var m := s.b.mem.sessions[o];
    RecordNow(s, o, m);
    match e
    case Controlled(path, c, _, _) => if c.owner == o { ControlSame(m, path, c, s.now); }
    case Reserving(c, r, normal, _, _) => if c.owner == o { SoundValid(m, o); ReserveSameOthers(m, c, r, normal, s.now, o); }
    case ProcMoves(x, step) => if x == o { ProcSame(s, o, step); }
    case WorkerMoves(x, move) => if x == o { NoCleanup(s, o, move, k, q); }
    case _ => ClosingSame(s, e, l, o, n);
  }

  lemma SoundValid(m: Session, o: Owner)
    requires SessionSound(m, o)
    ensures SessionValid(m, o)
  {
  }

  /** An owner with an intent that is not answered is not cleaned up. */
  lemma NoCleanup(s: System, o: Owner, move: WorkerEvent, k: PromptKey, q: nat)
    requires SystemInv(s) && s.up && o in s.workers && o in s.b.mem.sessions && IntentAt(s.b.mem.sessions[o], k, q)
    ensures WorkerNext(s, o, move).None?
  {
    hide SessionSound, SessionWorld;
    assert OwnerInv(s, o);
    RecordNow(s, o, s.b.mem.sessions[o]);
    SoundValid(s.b.mem.sessions[o], o);
    UnsettledBlocks(s.b.mem.sessions[o], o, k, q);
    WorkerNow(s, o);
  }

  lemma IntentStays(size: Ledger -> nat, s: System, e: Event, o: Owner, k: PromptKey, q: nat)
    requires RunInv(s) && Unrequested(s, o, k, q) && o in s.b.disk.sessions && IntentAt(s.b.disk.sessions[o], k, q)
    ensures var l := Apply(size, s, e).b.disk; o in l.sessions && IntentAt(l.sessions[o], k, q)
  {
    hide Apply, Writes, SystemInv, IntentAt;
    var t := Apply(size, s, e);
    ApplyKeeps(size, s, e);
    StepForward(s.b, t.b);
    DiskAdvances(s, t, o);
    ProcessKnown(s);
    DiskWritten(size, s, e);
    if t.b.disk != s.b.disk { IntentKept(s, e, t.b.disk, o, t.b.disk.sessions[o], k, q); }
  }

  lemma ProcessKnown(s: System)
    requires SystemInv(s)
    ensures ProcessInv(s)
  {
  }

  lemma ReservedLater(m: Session, o: Owner, c: Context, r: Request, normal: bool, now: int, q: nat)
    requires SessionValid(m, o) && ReserveChange(m, c, r, normal, now).Ok? && HasInvocation(m, c.prompt, q)
    ensures c.sequence != q
  {
    hide SessionValid, ReserveChange;
    ReserveStages(m, c, r, normal, now);
    NewSequence(m, o, c.prompt, c.sequence);
  }

  /** A new request of the prompt has a later sequence number. */
  lemma UnrequestedStays(size: Ledger -> nat, s: System, e: Event, o: Owner, k: PromptKey, q: nat)
    requires RunInv(s) && Unrequested(s, o, k, q) && o in s.b.disk.sessions && IntentAt(s.b.disk.sessions[o], k, q)
    ensures Unrequested(Apply(size, s, e), o, k, q)
  {
    hide Apply, SystemInv, ReserveChange, SessionValid, SessionSound;
    if o in Apply(size, s, e).procs {
      ProcsFrom(size, s, e, o);
      if e.Reserving? && s.up && !s.b.poisoned && e.context.owner == o && e.context.prompt == k {
        UpReads(s);
        var m := s.b.disk.sessions[o];
        RecordNow(s, o, m);
        SoundValid(m, o);
        if ReserveChange(m, e.context, e.request, e.outputsNormal, s.now).Ok? {
          ReservedLater(m, o, e.context, e.request, e.outputsNormal, s.now, q);
        }
      }
    }
  }

  lemma {:induction false} IntentRun(size: Ledger -> nat, s: System, events: seq<Event>, o: Owner, k: PromptKey, q: nat)
    requires RunInv(s) && Unrequested(s, o, k, q) && o in s.b.disk.sessions && IntentAt(s.b.disk.sessions[o], k, q)
    ensures var t := Run(size, s, events);
            RunInv(t) && Unrequested(t, o, k, q) && o in t.b.disk.sessions && IntentAt(t.b.disk.sessions[o], k, q)
  {
    hide Apply, RunInv, Unrequested;
    if events != [] {
      var last := |events| - 1;
      IntentRun(size, s, events[..last], o, k, q);
      RunKeeps(size, s, events);
      UnrequestedStays(size, Run(size, s, events[..last]), events[last], o, k, q);
      IntentStays(size, Run(size, s, events[..last]), events[last], o, k, q);
    }
  }

  /** A request in flight is that of the latest invocation of its prompt. */
  lemma NotRunning(s: System, o: Owner, k: PromptKey, q: nat)
    requires SystemInv(s) && s.up && !s.b.poisoned && Unrequested(s, o, k, q) && o in s.b.disk.sessions
    requires HasInvocation(s.b.disk.sessions[o], k, q)
    ensures var p := s.b.disk.sessions[o].prompts[k]; !Running(s.b, o, k, p, p.invocations[q])
  {
    hide OwnersInv, SessionWorld;
    var m := s.b.disk.sessions[o];
    RecordNow(s, o, m);
    assert PromptValid(m.prompts[k], k, m);
    assert InvocationValid(m.prompts[k].invocations[q], q, k, m.prompts[k].settled, m);
  }

  /**
   An intent on disk whose request is no longer in flight is never resolved either, be it left by a crash
   or by an end that found no space: whether the request was sent is not known, so after any further events
   the intent is still there and blocks its prompt and its owner.
   */
  lemma IntentForever(size: Ledger -> nat, s: System, events: seq<Event>, o: Owner, k: PromptKey, q: nat)
    requires RunInv(s) && Unrequested(s, o, k, q) && o in s.b.disk.sessions && IntentAt(s.b.disk.sessions[o], k, q)
    ensures var t := Run(size, s, events);
            BlockedAt(t, o, k) && IntentAt(t.b.disk.sessions[o], k, q)
  {
    hide Apply;
    var t := Run(size, s, events);
    IntentRun(size, s, events, o, k, q);
    if t.up && !t.b.poisoned { NotRunning(t, o, k, q); }
    CountedBlocks(t, o, k, q);
  }

  /** A renewal acknowledged during a creation: the lease is durable, and its request has sent no inference. */
  lemma AcknowledgedRenewalSound(size: Ledger -> nat, configDigest: string, now: int, events: seq<Event>, c: Context)
    requires now > 0
    requires var s := Run(size, Initial(configDigest, now), events);
             s.up && MayAcknowledgeRenewal(s.b, c, ControlReply(s.b, c), s.now)
    ensures var s := Run(size, Initial(configDigest, now), events);
            && c.owner in s.procs && s.procs[c.owner].prompt == c.prompt
            && KeyOf(s.procs[c.owner]) !in WorldOf(s, c.owner).infers
            && c.owner in s.b.disk.sessions && c.prompt in s.b.disk.sessions[c.owner].prompts
            && var p := s.b.disk.sessions[c.owner].prompts[c.prompt];
               p.leaseGeneration == c.leaseGeneration && p.leaseExpires == c.leaseExpires > s.now && !p.closing
  {
    hide Run, Apply, ProcStep, ReserveStep, ReserveNext, WorkerStep, RestartStep, LedgerValid, ControlReply;
    var s := Run(size, Initial(configDigest, now), events);
    Reachable(size, configDigest, now, events);
    var o := c.owner;
    var m := s.b.mem.sessions[o];
    RecordNow(s, o, m);
    var p := s.procs[o];
    assert p.seqNo == m.prompts[c.prompt].lastSequence;
    ReservedUnsent(m, p, WorldOf(s, o));
  }
}
