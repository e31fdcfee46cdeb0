/** The invariant holds after every sequence of events, and the ledgers only move forwards. */
module BrokerRuns {
  import opened Text
  import opened BrokerLedger
  import opened BrokerChanges
  import opened BrokerValidity
  import opened BrokerSystem
  import opened BrokerInvariant
  import opened BrokerSteps
  import opened BrokerSafety
  import opened BrokerMoves
  import opened BrokerEvents

  lemma ProcMovesKeeps(size: Ledger -> nat, s: System, o: Owner, step: ProcEvent)
    requires SystemInv(s)
    ensures Kept(s, Apply(size, s, ProcMoves(o, step)))
  {
    hide SystemInv, ReserveNext, Forward, WorkerFacts, Commit, SweepExpired, CaptureStep;
    if CanStep(s, o) { ProcStepKeeps(size, s, o, step); }
  }

  lemma ApplyKeeps(size: Ledger -> nat, s: System, e: Event)
    requires SystemInv(s)
    ensures Kept(s, Apply(size, s, e))
  {
    hide ProcStep, ReserveStep, WorkerStep, Control, PinPrincipal, CaptureStep, OwnersInv, OwnerInv, SessionAdvances, ClosePrompt, SessionAccepted, LedgerValid, LedgerInv, ParsedContext;
    match e
    case Tick(to) => if to >= s.now { CalmKeeps(s, Apply(size, s, e)); }
    case Crash => CrashKeeps(s);
    case Restart(io) => if !s.up { RestartKeeps(size, s, io); }
    case Shutdown => ShutdownKeeps(s, Apply(size, s, e));
    case Sweeping(io) => if s.up && !s.b.stopped { SweepKeeps(size, s, io); }
    case Controlled(path, c, at, io) =>
      if s.up && !path.Responses? && ParsedContext(path, c, at) {
        ParsedAdmissible(path, c, at);
        ControlKeeps(size, s, path, c, io);
      }
    case Disconnected(o, k, io) => if s.up && !s.b.stopped { DisconnectKeeps(size, s, o, k, io); }
    case Reserving(c, r, normal, at, io) =>
      if s.up && ParsedContext(Responses, c, at) {
        ParsedAdmissible(Responses, c, at);
        ReserveKeeps(size, s, c, r, normal, io);
      }
    case Pinning(digest, io) => if s.up && DigestValid(digest) { PinKeeps(size, s, digest, io); }
    case ProcMoves(o, step) => ProcMovesKeeps(size, s, o, step);
    case Capturing(o) => if s.up { CaptureKeeps(s, o); }
    case WorkerMoves(o, move) => if s.up && o in s.workers && o in s.b.mem.sessions { WorkerStepKeeps(size, s, o, move); }
  }

  lemma InitialInv(configDigest: string, now: int)
    requires now > 0
    ensures SystemInv(Initial(configDigest, now))
  {
  }

  lemma ForwardSelf(l: Ledger)
    ensures Forward(l, l)
  {
    forall o, s, t | Record(l, o, s) && Record(l, o, t) ensures SessionAdvances(s, t) {
      SessionAdvancesSelf(s);
    }
  }

  lemma ForwardTrans(l: Ledger, m: Ledger, n: Ledger)
    requires Forward(l, m) && Forward(m, n)
    ensures Forward(l, n)
  {
    forall o, s, t | Record(l, o, s) && Record(n, o, t) ensures SessionAdvances(s, t) {
      assert Record(m, o, m.sessions[o]);
      SessionAdvancesTrans(s, m.sessions[o], t);
    }
  }

  /** The invariant of runs: memory never runs ahead of the disk. */
  ghost predicate RunInv(s: System) {
    SystemInv(s) && Forward(s.b.mem, s.b.disk)
  }

  lemma StepForward(b: Broker, b1: Broker)
    requires Forward(b.mem, b.disk) && Onward(b, b1)
    ensures Forward(b.disk, b1.disk) && Forward(b.mem, b1.mem) && Forward(b1.mem, b1.disk)
  {
    ForwardSelf(b.disk);
    ForwardSelf(b.mem);
    ForwardSelf(b1.disk);
    ForwardTrans(b.mem, b.disk, b1.disk);
  }

  lemma DiskAdvances(s: System, t: System, o: Owner)
    requires Forward(s.b.disk, t.b.disk) && o in s.b.disk.sessions
    ensures o in t.b.disk.sessions && SessionAdvances(s.b.disk.sessions[o], t.b.disk.sessions[o])
  {
    assert Record(s.b.disk, o, s.b.disk.sessions[o]) && Record(t.b.disk, o, t.b.disk.sessions[o]);
  }

  /** Over any events at all the invariant is kept and both ledgers only move forwards. */
  lemma {:induction false} RunKeeps(size: Ledger -> nat, s: System, events: seq<Event>)
    requires RunInv(s)
    ensures var t := Run(size, s, events);
            RunInv(t) && Forward(s.b.disk, t.b.disk) && Forward(s.b.mem, t.b.mem)
  {
    if events == [] {
      ForwardSelf(s.b.disk);
      ForwardSelf(s.b.mem);
    } else {
      var u := Run(size, s, events[..|events| - 1]);
      RunKeeps(size, s, events[..|events| - 1]);
      ApplyKeeps(size, u, events[|events| - 1]);
      var t := Run(size, s, events);
      StepForward(u.b, t.b);
      ForwardTrans(s.b.disk, u.b.disk, t.b.disk);
      ForwardTrans(s.b.mem, u.b.mem, t.b.mem);
    }
  }

  lemma Reachable(size: Ledger -> nat, configDigest: string, now: int, events: seq<Event>)
    requires now > 0
    ensures RunInv(Run(size, Initial(configDigest, now), events))
  {
    InitialInv(configDigest, now);
    ForwardSelf(EmptyLedger(configDigest));
    RunKeeps(size, Initial(configDigest, now), events);
  }
}
