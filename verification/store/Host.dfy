/** One process opening a state directory, while any others do the same between its calls. */
module StoreHost {
  import opened Wrappers
  import opened StoreInitialization

  lemma RunMore(h: Host, events: seq<Event>, e: Event)
    ensures Run(h, events + [e]) == Apply(Run(h, events), e)
  {
    assert (events + [e])[..|events|] == events;
  }

  lemma {:induction false} RunJoined(h: Host, a: seq<Event>, b: seq<Event>)
    ensures Run(h, a + b) == Run(Run(h, a), b)
  {
    if b == [] {
      assert a + b == a;
    } else {
      var n := |b| - 1;
      RunJoined(h, a, b[..n]);
      assert (a + b)[..|a + b| - 1] == a + b[..n];
    }
  }

  // One attempt to take the file lock.
  datatype Flock = Taken | Busy | Interrupted

  class Directory {
    var host: Host
    ghost const start: Host
    ghost var history: seq<Event>

    /** The directory is in a state that the processes at it can have brought about. */
    ghost predicate Valid()
      reads this
    {
      host == Run(start, history) && Inv(host)
    }

    constructor (lockFile: bool, ledger: bool)
      ensures Valid() && host == Initial(lockFile, ledger)
    {
      start, history := Initial(lockFile, ledger), [];
      host := Initial(lockFile, ledger);
    }

    method Do(e: Event)
      requires Valid()
      modifies this
      ensures Valid() && host == Apply(old(host), e) && history == old(history) + [e]
    {
      RunMore(start, history, e);
      ApplyInv(host, e);
      host := Apply(host, e);
      history := history + [e];
    }

    /** Other processes move. */
    method OthersMove(events: seq<Event>, p: Pid)
      requires Valid() && forall e :: e in events ==> e.p != p
      modifies this
      ensures Valid() && host == Run(old(host), events)
    {
      RunJoined(start, history, events);
      RunInv(host, events);
      host := Run(host, events);
      history := history + events;
    }
  }

  /** Others leave a process where it is. */
  lemma {:induction false} OthersLeave(h: Host, events: seq<Event>, p: Pid)
    requires forall e :: e in events ==> e.p != p
    ensures p in h.procs <==> p in Run(h, events).procs
    ensures p in h.procs ==> Run(h, events).procs[p] == h.procs[p]
    ensures h.holder == Some(p) <==> Run(h, events).holder == Some(p)
  {
    if events != [] {
      var last := |events| - 1;
      assert events[last] in events;
      OthersLeave(h, events[..last], p);
    }
  }

  /** The retry loop around the file lock: interruptions are not answers. */
  method TakeFileLock(attempts: seq<Flock>) returns (answer: Option<Flock>, tried: nat)
    ensures tried <= |attempts| && forall i :: 0 <= i < tried - 1 ==> attempts[i].Interrupted?
    ensures answer.Some? ==> tried > 0 && answer.value == attempts[tried - 1] && !answer.value.Interrupted?
    ensures answer.None? <==> forall i :: 0 <= i < |attempts| ==> attempts[i].Interrupted?
  {
    tried := 0;
    while tried < |attempts|
      invariant tried <= |attempts| && forall i :: 0 <= i < tried ==> attempts[i].Interrupted?
    {
      var attempt := attempts[tried];
      tried := tried + 1;
      if !attempt.Interrupted? {
        return Some(attempt), tried;
      }
    }
    return None, tried;
  }

  /**
   Opening as process `p`, with others moving between its calls. The result is an owner of a
   ledger, or no trace of the process at all; and a ledger that was missing is there afterwards
   only if this process created the lock file, or another one published it.
   */
  method OpenStore(d: Directory, p: Pid, others: seq<seq<Event>>, valid: bool, io: Io) returns (owns: bool)
    requires d.Valid() && p !in d.host.procs && |others| == 4
    requires forall i, e :: 0 <= i < 4 && e in others[i] ==> e.p != p
    modifies d
    ensures d.Valid()
    ensures owns ==> p in d.host.procs && d.host.procs[p].Owner? && d.host.holder == Some(p) && d.host.ledger
    ensures !owns ==> p !in d.host.procs || d.host.procs[p].Waiting?
  {
    d.Do(OpenLockFile(p));
    d.OthersMove(others[0], p);
    OthersLeave(Apply(old(d.host), OpenLockFile(p)), others[0], p);
    d.Do(Inspect(p));
    ghost var inspected := d.host;
    d.OthersMove(others[1], p);
    OthersLeave(inspected, others[1], p);
    var locked := Lock(d, p);
    if !locked {
      return false;
    }
    ghost var held := d.host;
    d.OthersMove(others[2], p);
    OthersLeave(held, others[2], p);
    owns := ReadOrPublish(d, p, valid, io);
    ghost var done := d.host;
    d.OthersMove(others[3], p);
    OthersLeave(done, others[3], p);
    RunInv(done, others[3]);
  }

  /** The creator of a missing ledger goes on waiting for a busy lock; everyone else gives up. */
  method Lock(d: Directory, p: Pid) returns (locked: bool)
    requires d.Valid() && p in d.host.procs && (d.host.procs[p].Waiting? || d.host.procs[p].Trying?)
    modifies d
    ensures d.Valid()
    ensures locked ==> p in d.host.procs && d.host.procs[p].Locked? && d.host.holder == Some(p)
    ensures !locked ==> p !in d.host.procs || (d.host.procs[p].Waiting? && d.host == old(d.host))
    ensures locked <==> old(d.host).holder.None?
  {
    if d.host.holder.None? {
      d.Do(Acquire(p));
      return true;
    }
    if d.host.procs[p].Trying? {
      d.Do(Refuse(p));
    }
    return false;
  }

  method ReadOrPublish(d: Directory, p: Pid, valid: bool, io: Io) returns (owns: bool)
    requires d.Valid() && p in d.host.procs && d.host.procs[p].Locked? && d.host.holder == Some(p)
    modifies d
    ensures d.Valid()
    ensures owns ==> p in d.host.procs && d.host.procs[p].Owner? && d.host.holder == Some(p) && d.host.ledger
    ensures !owns ==> p !in d.host.procs
    ensures !old(d.host).ledger && !old(d.host).procs[p].created ==> !owns && !d.host.ledger
    ensures old(d.host).ledger ==> owns == valid
  {
    if d.host.ledger {
      d.Do(Adopt(p, valid));
      return valid;
    }
    if !d.host.procs[p].created {
      d.Do(RejectMissing(p));
      return false;
    }
    d.Do(Publish(p, io));
    return io.Saved?;
  }

  // ---------------------------------------------------------------------------
  // Directories
  // ---------------------------------------------------------------------------

  // A path from the root. `entries` are the directories that exist, `durable` those whose entry
  // in the parent survives a crash.
  type Path = seq<string>

  datatype Tree = Tree(entries: set<Path>, durable: set<Path>)

  function Parent(path: Path): Path {
    if path == [] then [] else path[..|path| - 1]
  }

  /** No directory exists below an entry that a crash could take away. */
  predicate Anchored(before: set<Path>, t: Tree) {
    && before <= t.entries
    && forall d :: d in t.entries && d !in before && d != [] ==>
                     Parent(d) in t.entries && (Parent(d) == [] || Parent(d) in t.durable)
  }

  class FileTree {
    var tree: Tree

    constructor (entries: set<Path>)
      ensures tree == Tree(entries, {})
    {
      tree := Tree(entries, {});
    }

    method SyncParent(path: Path, works: bool) returns (ok: bool)
      modifies this
      ensures ok == works && tree == if works then old(tree).(durable := old(tree).durable + {path}) else old(tree)
    {
      if works {
        tree := tree.(durable := tree.durable + {path});
      }
      return works;
    }

    /**
     Make a directory and its missing ancestors. Each entry is made durable before anything is put
     below it. `works` says which synchronizations succeed.
     */
    method MakeDirectory(path: Path, works: Path -> bool) returns (ok: bool)
      modifies this
      ensures old(tree).entries <= tree.entries && old(tree).durable <= tree.durable
      ensures ok ==> path in tree.entries && (path != [] ==> path in tree.durable)
      ensures Anchored(old(tree).entries, tree)
      ensures forall d :: d in tree.entries ==> d in old(tree).entries || d <= path
      decreases |path|
    {
      if path in tree.entries {
        if path == [] {
          return true;
        }
        ok := SyncParent(path, works(path));
        return;
      }
      if path == [] {
        return false;
      }
      ok := MakeDirectory(Parent(path), works);
      if !ok {
        return false;
      }
      ghost var made := tree;
      tree := tree.(entries := tree.entries + {path});
      assert Anchored(old(tree).entries, tree);
      ok := SyncParent(path, works(path));
    }
  }
}
