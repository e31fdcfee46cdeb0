/**
 Opening a state directory by any number of processes: an exclusively created lock file is the
 witness that its creator alone may write the first ledger.
 */
module StoreInitialization {
  import opened Wrappers

  type Pid = nat

  // Where a process is. `created`: it created the lock file. A creator that found no ledger
  // waits for the lock; every other process only tries.
  datatype Pc =
    | Opened(created: bool)
    | Waiting
    | Trying(created: bool)
    | Locked(created: bool)
    | Owner(created: bool)

  // How the first write of a ledger ended; a failed one may still have published it.
  datatype Io = Saved | LostOld | LostNew

  // `publications` counts first ledgers written, `publisher` is the process that wrote one.
  datatype Host = Host(
    lockFile: bool,
    ledger: bool,
    holder: Option<Pid>,
    procs: map<Pid, Pc>,
    creators: nat,
    publications: nat,
    publisher: Option<Pid>)

  datatype Event =
    | OpenLockFile(p: Pid)
    | Inspect(p: Pid)
    | Acquire(p: Pid)
    | Refuse(p: Pid)
    | RejectMissing(p: Pid)
    | Adopt(p: Pid, valid: bool)
    | Publish(p: Pid, io: Io)
    | Exit(p: Pid)

  predicate Created(pc: Pc) {
    pc.Waiting? || ((pc.Opened? || pc.Trying? || pc.Locked? || pc.Owner?) && pc.created)
  }

  predicate Holds(pc: Pc) {
    pc.Locked? || pc.Owner?
  }

  function At(h: Host, p: Pid, pc: Pc): Host {
    h.(procs := h.procs[p := pc])
  }

  /** A process that ends, in any way, gives up its lock. */
  function Gone(h: Host, p: Pid): Host {
    h.(procs := h.procs - {p}, holder := if h.holder == Some(p) then None else h.holder)
  }

  function Apply(h: Host, e: Event): Host {
    match e
    case OpenLockFile(p) =>
      if p in h.procs then h
      else if h.lockFile then At(h, p, Opened(false))
      else At(h.(lockFile := true, creators := h.creators + 1), p, Opened(true))
    case Inspect(p) =>
      if p !in h.procs || !h.procs[p].Opened? then h
      else if h.procs[p].created && !h.ledger then At(h, p, Waiting)
      else At(h, p, Trying(h.procs[p].created))
    case Acquire(p) =>
      if p !in h.procs || h.holder.Some? then h
      else if h.procs[p].Waiting? then At(h.(holder := Some(p)), p, Locked(true))
      else if h.procs[p].Trying? then At(h.(holder := Some(p)), p, Locked(h.procs[p].created))
      else h
    case Refuse(p) => if p in h.procs && h.procs[p].Trying? && h.holder.Some? then Gone(h, p) else h
    case RejectMissing(p) =>
      if p in h.procs && h.procs[p].Locked? && !h.procs[p].created && !h.ledger then Gone(h, p) else h
    case Adopt(p, valid) =>
      if p !in h.procs || !h.procs[p].Locked? || !h.ledger then h
      else if valid then At(h, p, Owner(h.procs[p].created))
      else Gone(h, p)
    case Publish(p, io) =>
      if p !in h.procs || !h.procs[p].Locked? || !h.procs[p].created || h.ledger then h
      else if io.LostOld? then Gone(h, p)
      else
        var h1 := h.(ledger := true, publications := h.publications + 1, publisher := Some(p));
        if io.Saved? then At(h1, p, Owner(true)) else Gone(h1, p)
    case Exit(p) => if p in h.procs then Gone(h, p) else h
  }

  function Run(h: Host, events: seq<Event>): Host {
    if events == [] then h else Apply(Run(h, events[..|events| - 1]), events[|events| - 1])
  }

  /** A directory with or without a lock file and a ledger, and nobody at it. */
  function Initial(lockFile: bool, ledger: bool): Host {
    Host(lockFile, ledger, None, map[], 0, 0, None)
  }

  // ---------------------------------------------------------------------------
  // The invariant
  // ---------------------------------------------------------------------------

  ghost predicate Inv(h: Host) {
    && (forall p :: p in h.procs ==> (Holds(h.procs[p]) <==> h.holder == Some(p)))
    && (h.holder.Some? ==> h.holder.value in h.procs)
    && (forall p, q :: p in h.procs && q in h.procs && Created(h.procs[p]) && Created(h.procs[q]) ==> p == q)
    && h.creators <= 1 && (h.creators > 0 ==> h.lockFile)
    && (forall p :: p in h.procs && Created(h.procs[p]) ==> h.creators == 1)
    && (forall p :: p in h.procs ==> h.lockFile)
    && (forall p :: p in h.procs && h.procs[p].Owner? ==> h.ledger)
    && (forall p :: p in h.procs && h.procs[p].Waiting? ==> !h.ledger)
    && (forall p :: p in h.procs && Created(h.procs[p]) && !h.procs[p].Owner? ==> h.publications == 0)
    && h.publications <= h.creators && (h.publications > 0 ==> h.ledger)
  }

  lemma GoneInv(h: Host, p: Pid)
    requires Inv(h)
    ensures Inv(Gone(h, p))
  {
  }

  lemma OpenInv(h: Host, p: Pid)
    requires Inv(h) && p !in h.procs
    ensures h.lockFile ==> Inv(At(h, p, Opened(false)))
    ensures !h.lockFile ==> Inv(At(h.(lockFile := true, creators := h.creators + 1), p, Opened(true)))
  {
  }

  /** A process that neither takes nor gives up the lock keeps what it knows. */
  lemma MoveInv(h: Host, p: Pid, pc: Pc)
    requires Inv(h) && p in h.procs && Holds(pc) == Holds(h.procs[p]) && Created(pc) == Created(h.procs[p])
    requires (pc.Owner? ==> h.ledger) && (pc.Waiting? ==> !h.ledger)
    requires h.procs[p].Owner? ==> pc.Owner?
    ensures Inv(At(h, p, pc))
  {
  }

  lemma TakeInv(h: Host, p: Pid, pc: Pc)
    requires Inv(h) && p in h.procs && h.holder.None? && pc.Locked? && pc.created == Created(h.procs[p])
    ensures Inv(At(h.(holder := Some(p)), p, pc))
  {
    assert !Holds(h.procs[p]);
  }

  lemma PublishInv(h: Host, p: Pid)
    requires Inv(h) && p in h.procs && h.procs[p] == Locked(true) && !h.ledger
    ensures var h1 := h.(ledger := true, publications := h.publications + 1, publisher := Some(p));
            Inv(At(h1, p, Owner(true))) && Inv(Gone(h1, p))
  {
    assert forall q :: q in h.procs && Created(h.procs[q]) ==> q == p;
  }

  lemma ApplyInv(h: Host, e: Event)
    requires Inv(h)
    ensures Inv(Apply(h, e))
    ensures h.ledger ==> Apply(h, e).ledger
    ensures h.lockFile ==> Apply(h, e).lockFile
  {
    hide Inv;
    var p := e.p;
    GoneInv(h, p);
    match e
    case OpenLockFile(_) => if p !in h.procs { OpenInv(h, p); }
    case Inspect(_) =>
      if p in h.procs && h.procs[p].Opened? {
        MoveInv(h, p, if h.procs[p].created && !h.ledger then Waiting else Trying(h.procs[p].created));
      }
    case Acquire(_) =>
      if p in h.procs && h.holder.None? && (h.procs[p].Waiting? || h.procs[p].Trying?) {
        TakeInv(h, p, Locked(Created(h.procs[p])));
      }
    case Adopt(_, valid) => if p in h.procs && h.procs[p].Locked? && h.ledger && valid { MoveInv(h, p, Owner(h.procs[p].created)); }
    case Publish(_, io) => if p in h.procs && h.procs[p] == Locked(true) && !h.ledger { PublishInv(h, p); }
    case _ =>
  }

  lemma {:induction false} RunInv(h: Host, events: seq<Event>)
    requires Inv(h)
    ensures Inv(Run(h, events))
    ensures h.ledger ==> Run(h, events).ledger
    ensures h.lockFile ==> Run(h, events).lockFile
  {
    if events != [] {
      RunInv(h, events[..|events| - 1]);
      ApplyInv(Run(h, events[..|events| - 1]), events[|events| - 1]);
    }
  }

  // ---------------------------------------------------------------------------
  // What the protocol promises
  // ---------------------------------------------------------------------------

  /** At most one process holds the ledger, and at most one ever publishes a first one. */
  lemma Exclusive(lockFile: bool, ledger: bool, events: seq<Event>)
    ensures var h := Run(Initial(lockFile, ledger), events);
            && (forall p, q :: p in h.procs && q in h.procs && Holds(h.procs[p]) && Holds(h.procs[q]) ==> p == q)
            && h.creators <= 1 && h.publications <= h.creators
            && (forall p :: p in h.procs && h.procs[p].Owner? ==> h.ledger)
  {
    RunInv(Initial(lockFile, ledger), events);
  }

  lemma PublishedBy(h: Host, e: Event)
    requires Inv(h) && Apply(h, e).ledger && !h.ledger
    ensures e.Publish? && e.p in h.procs && h.procs[e.p] == Locked(true) && h.holder == Some(e.p) && h.publications == 0
  {
  }

  /** A first ledger is written only by the creator of the lock file, holding the lock, where there is none. */
  lemma OnlyTheCreatorPublishes(lockFile: bool, ledger: bool, events: seq<Event>, e: Event)
    requires Run(Initial(lockFile, ledger), events + [e]).ledger && !Run(Initial(lockFile, ledger), events).ledger
    ensures var h := Run(Initial(lockFile, ledger), events);
            && e.Publish? && e.p in h.procs && h.procs[e.p] == Locked(true) && h.holder == Some(e.p)
            && !lockFile && h.publications == 0
  {
    hide Apply, Inv;
    assert (events + [e])[..|events|] == events;
    InitialInv(lockFile, ledger);
    RunInv(Initial(lockFile, ledger), events);
    PublishedBy(Run(Initial(lockFile, ledger), events), e);
    if lockFile { NoCreator(Initial(lockFile, ledger), events); }
  }

  lemma InitialInv(lockFile: bool, ledger: bool)
    ensures Inv(Initial(lockFile, ledger))
  {
  }

  ghost predicate NobodyCreates(h: Host) {
    h.lockFile && forall p :: p in h.procs ==> !Created(h.procs[p])
  }

  /** Without a creator there never is one again. */
  lemma {:induction false} NoCreator(h: Host, events: seq<Event>)
    requires NobodyCreates(h)
    ensures NobodyCreates(Run(h, events))
  {
    if events != [] { NoCreator(h, events[..|events| - 1]); }
  }

  /** A missing ledger whose creator is gone is never made again, and nobody becomes its owner. */
  lemma {:induction false} NeverRecreated(h: Host, events: seq<Event>)
    requires Inv(h) && NobodyCreates(h) && !h.ledger
    ensures var t := Run(h, events);
            NobodyCreates(t) && !t.ledger && forall p :: p in t.procs ==> !t.procs[p].Owner?
  {
    if events != [] { NeverRecreated(h, events[..|events| - 1]); }
    NoCreator(h, events);
    RunInv(h, events);
  }

  predicate KeepsRight(h: Host, c: Pid) {
    c in h.procs && (h.procs[c].Waiting? || h.procs[c] == Locked(true)) && !h.ledger
  }

  lemma RightKept(h: Host, e: Event, c: Pid)
    requires Inv(h) && KeepsRight(h, c) && e != Exit(c) && !(e.Publish? && e.p == c)
    ensures KeepsRight(Apply(h, e), c)
  {
  }

  /** A waiting creator is never turned away: whatever others do, it waits or holds the lock, until it has published or ends itself. */
  lemma {:induction false} CreatorKeepsItsRight(h: Host, events: seq<Event>, c: Pid)
    requires Inv(h) && c in h.procs && h.procs[c].Waiting?
    requires forall e :: e in events ==> e != Exit(c) && !(e.Publish? && e.p == c)
    ensures KeepsRight(Run(h, events), c)
  {
    hide Apply;
    if events != [] {
      var last := |events| - 1;
      CreatorKeepsItsRight(h, events[..last], c);
      RunInv(h, events[..last]);
      assert events[last] in events;
      RightKept(Run(h, events[..last]), events[last], c);
    }
  }

  /** Whoever is ahead of a waiting creator can only leave: one step of the holder, and the creator has the lock. */
  lemma CreatorComesNext(lockFile: bool, ledger: bool, events: seq<Event>, c: Pid)
    requires var h := Run(Initial(lockFile, ledger), events); c in h.procs && h.procs[c].Waiting?
    ensures var h := Run(Initial(lockFile, ledger), events);
            if h.holder.None? then Apply(h, Acquire(c)).procs[c] == Locked(true)
            else
              var p := h.holder.value;
              && p in h.procs && h.procs[p] == Locked(false) && p in Apply(h, Adopt(p, true)).procs && !Apply(h, Adopt(p, true)).procs[p].Owner?
              && var h1 := Apply(h, RejectMissing(p));
                 h1.holder.None? && c in h1.procs && Apply(h1, Acquire(c)).procs[c] == Locked(true)
  {
    RunInv(Initial(lockFile, ledger), events);
  }
}
