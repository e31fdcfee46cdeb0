/** The broker process: its fields, the critical sections that update them, and the loops inside. */
module BrokerProcess {
  import opened Wrappers
  import opened Text
  import opened BrokerLedger
  import opened BrokerChanges
  import opened BrokerSystem
  import opened BrokerReplies

  // ---------------------------------------------------------------------------
  // Loops over one record
  // ---------------------------------------------------------------------------

  /** Space kept back for owners that are not retired. */
  method LedgerReserveBytes(l: Ledger) returns (reserve: nat)
    ensures reserve == ReserveBytes(l)
  {
    reserve := 0;
    if l.principal == "" {
      reserve := PRINCIPAL_RESERVE_BYTES;
    }
    var rest := l.sessions.Keys;
    ghost var live: set<Owner> := {};
    ghost var base := reserve;
    while rest != {}
      invariant rest <= l.sessions.Keys
      invariant live == set o | o in l.sessions && o !in rest && !l.sessions[o].retired
      invariant reserve == base + |live| * OWNER_RESERVE_BYTES
    {
      var o :| o in rest;
      if !l.sessions[o].retired {
        reserve := reserve + OWNER_RESERVE_BYTES;
        assert |live + {o}| == |live| + 1;
        live := live + {o};
      }
      rest := rest - {o};
    }
    assert live == LiveOwners(l);
  }

  method CloseEach(prompts: map<PromptKey, Prompt>) returns (closed: map<PromptKey, Prompt>)
    ensures closed == CloseAll(prompts)
  {
    closed := prompts;
    var rest := prompts.Keys;
    while rest != {}
      invariant rest <= prompts.Keys && closed.Keys == prompts.Keys
      invariant forall k :: k in prompts ==> closed[k] == if k in rest then prompts[k] else prompts[k].(closing := true)
    {
      var k :| k in rest;
      closed := closed[k := closed[k].(closing := true)];
      rest := rest - {k};
    }
  }

  method ExpireEach(s: Session, now: int) returns (t: Session)
    ensures t == ExpirePrompts(s, now)
  {
    var prompts := s.prompts;
    var rest := s.prompts.Keys;
    while rest != {}
      invariant rest <= s.prompts.Keys && prompts.Keys == s.prompts.Keys
      invariant forall k :: k in s.prompts ==>
                  prompts[k] == if k !in rest && s.prompts[k].leaseExpires <= now then s.prompts[k].(closing := true) else s.prompts[k]
    {
      var k :| k in rest;
      if prompts[k].leaseExpires <= now {
        prompts := prompts[k := prompts[k].(closing := true)];
      }
      rest := rest - {k};
    }
    t := s.(prompts := prompts);
    assert prompts == ExpirePrompts(s, now).prompts;
  }

  method RecoverEach(s: Session) returns (t: Session)
    ensures t == RecoverPrompts(s)
  {
    var prompts := s.prompts;
    var rest := s.prompts.Keys;
    while rest != {}
      invariant rest <= s.prompts.Keys && prompts.Keys == s.prompts.Keys
      invariant forall k :: k in s.prompts ==>
                  prompts[k] == if k !in rest && !s.prompts[k].settled then s.prompts[k].(closing := true) else s.prompts[k]
    {
      var k :| k in rest;
      if !prompts[k].settled {
        prompts := prompts[k := prompts[k].(closing := true)];
      }
      rest := rest - {k};
    }
    t := s.(prompts := prompts);
    assert prompts == RecoverPrompts(s).prompts;
  }

  /** The issued call that a tool result names, if it is one. */
  method ResultCall(item: Item, callIDs: map<string, string>) returns (call: Option<string>)
    ensures call.Some? <==> ResultItem(item, callIDs)
    ensures call.Some? ==> item.Object? && call.value == CallID(item) && call.value in callIDs
  {
    if TextMember(item, "type") != Some("function_call_output") {
      return None;
    }
    var named, output := TextMember(item, "call_id"), TextMember(item, "output");
    if named.None? || output.None? || named.value !in callIDs || |item.members| != 3 || ByteLength(output.value) > MAX_RESULT_BYTES {
      return None;
    }
    return named;
  }

  /** Tool results in order: each names an issued call not named before, and gets its provider identity. */
  method TranslateResults(items: seq<Item>, callIDs: map<string, string>) returns (r: Option<seq<Item>>)
    requires |items| == |callIDs|
    ensures r.Some? <==> ResultsAccepted(items, callIDs)
    ensures r.Some? ==> r.value == TranslateItems(items, callIDs)
  {
    hide ResultItem, TextMember, CallID, ByteLength;
    var sent: seq<Item> := [];
    var seen: set<string> := {};
    for i := 0 to |items|
      invariant |sent| == i
      invariant forall j :: 0 <= j < i ==> ResultItem(items[j], callIDs) && sent[j] == TranslateItem(items[j], callIDs)
      invariant seen == set j | 0 <= j < i :: CallID(items[j])
      invariant forall j, k :: 0 <= j < k < i ==> CallID(items[j]) != CallID(items[k])
    {
      var item := items[i];
      var call := ResultCall(item, callIDs);
      if call.None? || call.value in seen {
        return None;
      }
      assert forall j :: 0 <= j < i ==> CallID(items[j]) in seen;
      seen := seen + {call.value};
      sent := sent + [item.(members := item.members["call_id" := JText(callIDs[call.value])])];
    }
    assert sent == TranslateItems(items, callIDs);
    return Some(sent);
  }

  method TranslateRequest(s: Session, k: PromptKey, first: bool, request: Request) returns (r: Result<Request, Error>)
    ensures r == TranslatePrevious(s, k, first, request)
  {
    var known := request.previous in s.responses;
    if request.previous != "" && (!known || !s.responses[request.previous].completed
                                  || (first && s.responses[request.previous].hasFunctions)) {
      return Err(Conflict);
    }
    if !first && (!known || s.responses[request.previous].prompt != k) {
      return Err(Conflict);
    }
    if first {
      if !request.input.Text? {
        return Err(Invalid);
      }
      if known {
        return Ok(request.(previous := s.responses[request.previous].remoteID));
      }
      return Ok(request);
    }
    var link := s.responses[request.previous];
    if !request.input.Items? || !link.hasFunctions || |request.input.items| != |link.callIDs| {
      return Err(Conflict);
    }
    var sent := TranslateResults(request.input.items, link.callIDs);
    match sent {
      case None => return Err(Conflict);
      case Some(items) => return Ok(Request(Items(items), link.remoteID));
    }
  }

  method EnsurePromptIn(s: Session, c: Context) returns (r: Result<Session, Error>)
    ensures r == EnsurePrompt(s, c)
  {
    if c.prompt in s.prompts {
      return Ok(s);
    }
    if s.retiring || s.retired {
      return Err(Closed);
    }
    var rest := s.prompts.Keys;
    while rest != {}
      invariant rest <= s.prompts.Keys
      invariant forall k :: k in s.prompts && k !in rest ==> !IdentityClash(k, c)
    {
      var k :| k in rest;
      if IdentityClash(k, c) {
        return Err(Conflict);
      }
      rest := rest - {k};
    }
    if s.current.Some? && s.current.value in s.prompts && !s.prompts[s.current.value].settled {
      return Err(Conflict);
    }
    if |s.prompts| >= MAX_PROMPTS {
      return Err(Storage);
    }
    return Ok(s.(prompts := s.prompts[c.prompt := NewPrompt(c)], current := Some(c.prompt)));
  }

  /** Is this response already some invocation's? */
  method RemoteIDTaken(s: Session, id: string) returns (taken: bool)
    ensures taken <==> exists a :: a in s.responses && s.responses[a].remoteID == id
  {
    var rest := s.responses.Keys;
    while rest != {}
      invariant rest <= s.responses.Keys
      invariant forall a :: a in s.responses && a !in rest ==> s.responses[a].remoteID != id
    {
      var a :| a in rest;
      if s.responses[a].remoteID == id {
        return true;
      }
      rest := rest - {a};
    }
    return false;
  }

  /** The call map of a completion, refusing calls that are unsafe or repeated. */
  method MapCalls(calls: seq<string>, aliases: seq<string>) returns (r: Option<map<string, string>>)
    requires |calls| == |aliases|
    ensures r.Some? <==> CallsAdmissible(calls)
    ensures r.Some? ==> r.value == CallMap(calls, aliases)
  {
    var mapped: map<string, string> := map[];
    var seen: set<string> := {};
    for i := 0 to |calls|
      invariant mapped == CallMap(calls[..i], aliases[..i])
      invariant seen == set j | 0 <= j < i :: calls[j]
      invariant CallsAdmissible(calls[..i])
    {
      if !SafeString(calls[i], MAX_IDENTIFIER_BYTES) {
        return None;
      }
      if calls[i] in seen {
        ghost var j :| 0 <= j < i && calls[j] == calls[i];
        return None;
      }
      assert forall j :: 0 <= j < i ==> calls[j] in seen;
      assert calls[..i + 1][..i] == calls[..i] && aliases[..i + 1][..i] == aliases[..i];
      seen := seen + {calls[i]};
      mapped := mapped[aliases[i] := calls[i]];
    }
    assert calls[..|calls|] == calls && aliases[..|calls|] == aliases;
    return Some(mapped);
  }

  /** What a cleanup attempt sees of its owner: the closed prompts, and whether their work can be resumed or is unknown. */
  method CaptureOwner(s: Session) returns (k: Worker)
    ensures k == Capture(s)
  {
    var closing: set<PromptKey> := {};
    var ambiguous, quiet := false, true;
    var rest := s.prompts.Keys;
    while rest != {}
      invariant rest <= s.prompts.Keys
      invariant closing == set k | k in s.prompts && k !in rest && s.prompts[k].closing && !s.prompts[k].settled
      invariant ambiguous <==> exists k :: k in s.prompts && k !in rest && PromptAmbiguous(s.prompts[k])
      invariant quiet <==> forall k :: k in closing ==> PromptQuiet(s.prompts[k])
    {
      var k :| k in rest;
      var unknown, rests := InspectPrompt(s.prompts[k]);
      if s.prompts[k].closing && !s.prompts[k].settled {
        closing := closing + {k};
        quiet := quiet && rests;
      }
      ambiguous := ambiguous || unknown;
      rest := rest - {k};
    }
    assert closing == ClosingPrompts(s);
    assert SessionAmbiguous(s) <==> exists k :: k in s.prompts && PromptAmbiguous(s.prompts[k]);
    assert ClosingQuiet(s) <==> forall k :: k in closing ==> PromptQuiet(s.prompts[k]);
    k := Worker(closing, ambiguous, quiet, s.remoteID, s.createState, s.retiring, Captured);
  }

  predicate PromptAmbiguous(p: Prompt) {
    exists q :: q in p.invocations && AmbiguousInvocation(p.invocations[q])
  }

  predicate PromptQuiet(p: Prompt) {
    forall q :: q in p.invocations ==> QuietInvocation(p.invocations[q])
  }

  method InspectPrompt(p: Prompt) returns (unknown: bool, rests: bool)
    ensures unknown == PromptAmbiguous(p) && rests == PromptQuiet(p)
  {
    unknown, rests := false, true;
    var rest := p.invocations.Keys;
    while rest != {}
      invariant rest <= p.invocations.Keys
      invariant unknown <==> exists q :: q in p.invocations && q !in rest && AmbiguousInvocation(p.invocations[q])
      invariant rests <==> forall q :: q in p.invocations && q !in rest ==> QuietInvocation(p.invocations[q])
    {
      var q :| q in rest;
      match p.invocations[q].state {
        case Completed | Reserved | Rejected =>
        case _ => rests := false;
      }
      if AmbiguousInvocation(p.invocations[q]) {
        unknown := true;
      }
      rest := rest - {q};
    }
  }

  method SettleEach(s: Session, closing: set<PromptKey>, kind: Kind, remote: string, at: int) returns (t: Session)
    requires closing <= s.prompts.Keys
    ensures t == SettlePrompts(s, closing, kind, remote, at)
  {
    var prompts := s.prompts;
    var rest := closing;
    while rest != {}
      invariant rest <= closing && prompts.Keys == s.prompts.Keys
      invariant forall k :: k in s.prompts ==>
                  prompts[k] == if k in closing && k !in rest then SettlePrompt(s.prompts[k], Proof(s.owner, Some(k), remote, kind, at))
                                else s.prompts[k]
    {
      var k :| k in rest;
      var invocations := FinalizeEach(prompts[k].invocations);
      prompts := prompts[k := prompts[k].(settled := true, proof := Some(Proof(s.owner, Some(k), remote, kind, at)), invocations := invocations)];
      rest := rest - {k};
    }
    t := s.(prompts := prompts);
    assert prompts == SettlePrompts(s, closing, kind, remote, at).prompts;
  }

  method FinalizeEach(invocations: map<nat, Invocation>) returns (r: map<nat, Invocation>)
    ensures r == SettleInvocations(invocations)
  {
    r := invocations;
    var rest := invocations.Keys;
    while rest != {}
      invariant rest <= invocations.Keys && r.Keys == invocations.Keys
      invariant forall q :: q in invocations ==>
                  r[q] == if q in rest || invocations[q].state.Completed? then invocations[q] else invocations[q].(state := Finalized)
    {
      var q :| q in rest;
      if !r[q].state.Completed? {
        r := r[q := r[q].(state := Finalized)];
      }
      rest := rest - {q};
    }
  }

  method CleanUp(s: Session, closing: set<PromptKey>, retiring: bool, created: bool, kind: Kind, remote: string, at: int)
    returns (r: Result<Session, Error>)
    requires closing <= s.prompts.Keys
    ensures r == CleanupChange(s, closing, retiring, created, kind, remote, at)
  {
    var t := SettleEach(s, closing, kind, remote, at);
    if !retiring {
      return Ok(t);
    }
    var rest := t.prompts.Keys;
    while rest != {}
      invariant rest <= t.prompts.Keys
      invariant forall k :: k in t.prompts && k !in rest ==> t.prompts[k].settled
    {
      var k :| k in rest;
      if !t.prompts[k].settled {
        return Err(Pending);
      }
      rest := rest - {k};
    }
    if created {
      t := t.(createState := Deleted);
    }
    return Ok(t.(retired := true, proof := Some(Proof(s.owner, None, remote, kind, at))));
  }

  // ---------------------------------------------------------------------------
  // The process
  // ---------------------------------------------------------------------------

  class LifecycleBroker {
    // The length of the ledger's encoding.
    const size: Ledger -> nat

    var disk: Ledger
    var ledger: Ledger
    var storageError: bool
    var stopped: bool
    var active: map<Owner, PromptKey>
    var cancelled: set<Owner>

    function Model(): Broker
      reads this
    {
      Broker(disk, ledger, storageError, stopped, active, cancelled)
    }

    /** Reading the file back, and closing every prompt that was open in it. */
    constructor (size: Ledger -> nat, file: Ledger, io: Io)
      ensures this.size == size
      ensures Model() == Reopen(size, file, io).0
    {
      this.size := size;
      disk, ledger := file, file;
      storageError, stopped := false, false;
      active, cancelled := map[], {};
      new;
      hide Commit, RecoverPrompts, Recovered;
      var next := file;
      var rest := file.sessions.Keys;
      while rest != {}
        invariant rest <= file.sessions.Keys && next == file.(sessions := next.sessions) && next.sessions.Keys == file.sessions.Keys
        invariant forall o :: o in file.sessions ==>
                    next.sessions[o] == if o in rest then file.sessions[o] else RecoverPrompts(file.sessions[o])
        invariant Model() == Broker(file, file, false, false, map[], {})
      {
        var o :| o in rest;
        var t := RecoverEach(file.sessions[o]);
        next := PutSession(next, o, t);
        rest := rest - {o};
      }
      RecoveredByHand(file, next);
      var _ := CommitLedger(false, Ok(next), io);
    }

    /** A failed write: the last durable ledger stays, and every live request is stopped. */
    method FailStorage()
      modifies this
      ensures Model() == Poison(old(Model()))
    {
      storageError := true;
      stopped := true;
      var rest := active.Keys;
      cancelled := {};
      while rest != {}
        invariant rest <= active.Keys && cancelled == active.Keys - rest
        invariant Model() == Poison(old(Model())).(cancelled := cancelled)
      {
        var o :| o in rest;
        cancelled := cancelled + {o};
        rest := rest - {o};
      }
    }

    /** Replace the ledger: check its length, write it, and only then publish it. */
    method CommitLedger(ordinary: bool, next: Result<Ledger, Error>, io: Io) returns (r: Result<(), Error>)
      modifies this
      ensures (Model(), r) == Commit(size, old(Model()), ordinary, next, io)
    {
      if storageError {
        return Err(Storage);
      }
      if next.Err? {
        return Err(next.error);
      }
      var limit: int := MAX_LEDGER_BYTES;
      if ordinary && ledger != next.value {
        var reserve := LedgerReserveBytes(next.value);
        limit := limit - reserve;
      }
      if size(next.value) > limit {
        return Err(Capacity);
      }
      match io {
        case Saved =>
          disk := next.value;
          ledger := next.value;
          return Ok(());
        case LostOld =>
          FailStorage();
          return Err(Storage);
        case LostNew =>
          FailStorage();
          disk := next.value;
          return Err(Storage);
      }
    }

    /** Renewal, settlement and retirement. */
    method ApplyControl(path: Path, c: Context, now: int, io: Io) returns (r: Result<(), Error>)
      requires !path.Responses?
      modifies this
      ensures (Model(), r) == Control(size, old(Model()), path, c, now, io)
    {
      var ordinary := path.Renew? || c.owner !in ledger.sessions || (path.Settle? && c.prompt !in ledger.sessions[c.owner].prompts);
      var next := ControlRecord(path, c, now);
      r := CommitLedger(ordinary, next, io);
      if r.Ok? && (path.Settle? || path.Retire?) && c.owner in active && (path.Retire? || active[c.owner] == c.prompt) {
        cancelled := cancelled + {c.owner};
      }
    }

    method ControlRecord(path: Path, c: Context, now: int) returns (next: Result<Ledger, Error>)
      requires !path.Responses?
      ensures next == ControlNext(ledger, path, c, now)
    {
      var ensured := EnsureSession(ledger, c.owner);
      if ensured.Err? {
        return Err(ensured.error);
      }
      var recorded := RecordOperation(ensured.value, path, c);
      if recorded.Err? {
        return Err(recorded.error);
      }
      var s, duplicate := recorded.value.0, recorded.value.1;
      if path.Retire? {
        var closed := CloseEach(s.prompts);
        return Ok(PutSession(ledger, c.owner, s.(retiring := true, prompts := closed)));
      }
      if (s.retiring || s.retired) && path.Renew? {
        return Err(Closed);
      }
      var prompted := EnsurePromptIn(s, c);
      if prompted.Err? {
        return Err(prompted.error);
      }
      s := prompted.value;
      var p := s.prompts[c.prompt];
      if path.Settle? {
        return Ok(PutSession(ledger, c.owner, PutPrompt(s, c.prompt, p.(closing := true))));
      }
      if duplicate {
        return Ok(PutSession(ledger, c.owner, s));
      }
      if p.closing || p.settled {
        return Err(Closed);
      }
      if !(p.identity.operationID == c.operationID && p.lastSequence == 0 && p.leaseGeneration == c.leaseGeneration) {
        if c.leaseGeneration != (p.leaseGeneration + 1) % (MAX_UINT64 + 1) || p.leaseExpires <= now || c.leaseExpires < p.leaseExpires {
          return Err(Conflict);
        }
        p := p.(leaseGeneration := c.leaseGeneration, leaseExpires := c.leaseExpires);
      }
      return Ok(PutSession(ledger, c.owner, PutPrompt(s, c.prompt, p)));
    }

    /** Admission of one inference. */
    method ReserveInvocation(c: Context, request: Request, outputsNormal: bool, now: int, io: Io) returns (r: Result<Request, Error>)
      modifies this
      ensures (Model(), r) == Reserve(size, old(Model()), c, request, outputsNormal, now, io)
    {
      if storageError {
        return Err(Storage);
      }
      if stopped {
        return Err(Closed);
      }
      if c.owner in active {
        return Err(Conflict);
      }
      var next := ReserveRecord(c, request, outputsNormal, now);
      if next.Err? {
        return Err(next.error);
      }
      var committed := CommitLedger(true, Ok(next.value.0), io);
      if committed.Err? {
        return Err(committed.error);
      }
      active := active[c.owner := c.prompt];
      cancelled := cancelled - {c.owner};
      return Ok(next.value.1);
    }

    method ReserveRecord(c: Context, request: Request, outputsNormal: bool, now: int) returns (next: Result<(Ledger, Request), Error>)
      ensures next == ReserveNext(ledger, c, request, outputsNormal, now)
    {
      var ensured := EnsureSession(ledger, c.owner);
      if ensured.Err? {
        return Err(ensured.error);
      }
      var s := ensured.value;
      if s.retiring || s.retired {
        return Err(Closed);
      }
      var recorded := RecordOperation(s, Responses, c);
      if recorded.Err? {
        return Err(recorded.error);
      }
      if recorded.value.1 {
        return Err(Conflict);
      }
      var prompted := EnsurePromptIn(recorded.value.0, c);
      if prompted.Err? {
        return Err(prompted.error);
      }
      s := prompted.value;
      var p := s.prompts[c.prompt];
      if p.closing || p.settled || p.leaseExpires <= now {
        return Err(Closed);
      }
      if c.leaseGeneration != p.leaseGeneration || c.leaseExpires != p.leaseExpires || c.sequence <= p.lastSequence {
        return Err(Conflict);
      }
      if p.lastSequence != 0 && request.previous != p.lastAlias {
        return Err(Conflict);
      }
      var sent := TranslateRequest(s, c.prompt, p.lastSequence == 0, request);
      if sent.Err? {
        return Err(sent.error);
      }
      if !outputsNormal {
        return Err(Invalid);
      }
      p := p.(lastSequence := c.sequence,
              invocations := p.invocations[c.sequence := Invocation(c.sequence, c.operationID, c.bodyDigest, Reserved, "", "")]);
      return Ok((PutSession(ledger, c.owner, PutPrompt(s, c.prompt, p)), sent.value));
    }

    /** The account under which the remote is used, fixed by its first use. */
    method PinPrincipalDigest(digest: string, io: Io) returns (r: Result<(), Error>)
      modifies this
      ensures (Model(), r) == PinPrincipal(size, old(Model()), digest, io)
      ensures r.Ok? ==> ledger.principal == digest && !storageError && ledger.sessions == old(ledger.sessions)
      ensures old(ledger.principal) != "" ==> Model() == old(Model()) && (r.Ok? ==> digest == old(ledger.principal))
      ensures r.Err? ==> ledger == old(ledger)
    {
      if ledger.principal == digest {
        return if storageError then Err(Storage) else Ok(());
      }
      if ledger.principal != "" {
        return Err(Conflict);
      }
      r := CommitLedger(false, Ok(ledger.(principal := digest)), io);
    }

    /** An intent may be written for prompt `k`: its owner stays, it is open and not cancelled, and its lease runs. */
    predicate MayIntend(o: Owner, k: PromptKey, cancel: bool, now: int)
      reads this
    {
      && o in ledger.sessions && k in ledger.sessions[o].prompts
      && !ledger.sessions[o].retiring && !ledger.sessions[o].prompts[k].closing && !cancel
      && now < ledger.sessions[o].prompts[k].leaseExpires
    }

    /** The intent to create a remote session, durable before anything is sent. */
    method IntendCreation(o: Owner, k: PromptKey, remote: string, cancel: bool, now: int, io: Io) returns (r: Result<(), Error>)
      requires o in ledger.sessions && k in ledger.sessions[o].prompts
      modifies this
      ensures (Model(), r)
              == CommitSession(size, old(Model()), false, o, CreateIntentChange(old(ledger).sessions[o], k, remote, cancel, now), io)
      ensures r.Ok? ==> old(MayIntend(o, k, cancel, now)) && disk == ledger && ledger.sessions.Keys == old(ledger.sessions.Keys)
      ensures r.Ok? ==> ledger.sessions[o] == old(ledger.sessions[o]).(createState := CreateIntent, remoteID := remote)
      ensures r.Ok? ==> forall x :: x in ledger.sessions && x != o ==> ledger.sessions[x] == old(ledger.sessions[x])
      ensures r.Err? ==> ledger == old(ledger) && (old(!storageError && !MayIntend(o, k, cancel, now)) ==> Model() == old(Model()))
    {
      var s := ledger.sessions[o];
      if s.retiring || s.prompts[k].closing || cancel || s.prompts[k].leaseExpires <= now {
        r := CommitLedger(false, Err(Closed), io);
      } else {
        r := CommitLedger(false, Ok(PutSession(ledger, o, s.(remoteID := remote, createState := CreateIntent))), io);
      }
    }

    /** How the creation ended: acknowledged, or definitely nothing. */
    method RecordCreation(o: Owner, created: bool, io: Io) returns (r: Result<(), Error>)
      requires o in ledger.sessions
      modifies this
      ensures (Model(), r) == CommitSession(size, old(Model()), false, o, Ok(CreateResultChange(old(ledger).sessions[o], created)), io)
      ensures r.Ok? ==> disk == ledger && ledger.sessions.Keys == old(ledger.sessions.Keys)
      ensures r.Ok? ==> (ledger.sessions[o].createState.Known? <==> created)
                        && (created ==> ledger.sessions[o].remoteID == old(ledger.sessions[o].remoteID))
                        && (!created ==> ledger.sessions[o].createState.NotCreated? && ledger.sessions[o].remoteID == "")
                        && ledger.sessions[o].prompts == old(ledger.sessions[o].prompts)
      ensures r.Ok? ==> forall x :: x in ledger.sessions && x != o ==> ledger.sessions[x] == old(ledger.sessions[x])
      ensures r.Err? ==> ledger == old(ledger)
    {
      var s := ledger.sessions[o];
      if created {
        s := s.(createState := Known);
      } else {
        s := s.(remoteID := "", createState := NotCreated);
      }
      r := CommitLedger(false, Ok(PutSession(ledger, o, s)), io);
    }

    /** The intent to send an inference, durable before it is sent. */
    method IntendInference(o: Owner, k: PromptKey, q: nat, cancel: bool, now: int, io: Io) returns (r: Result<(), Error>)
      requires o in ledger.sessions && HasInvocation(ledger.sessions[o], k, q)
      modifies this
      ensures (Model(), r)
              == CommitSession(size, old(Model()), false, o, InferIntentChange(old(ledger).sessions[o], k, q, cancel, now), io)
      ensures r.Ok? ==> old(MayIntend(o, k, cancel, now)) && disk == ledger && ledger.sessions.Keys == old(ledger.sessions.Keys)
      ensures r.Ok? ==> HasInvocation(ledger.sessions[o], k, q) && ledger.sessions[o].prompts[k].invocations[q].state.Intent?
      ensures r.Ok? ==> forall l, n :: HasInvocation(old(ledger.sessions[o]), l, n) && (l, n) != (k, q) ==>
                          HasInvocation(ledger.sessions[o], l, n)
                          && ledger.sessions[o].prompts[l].invocations[n] == old(ledger.sessions[o]).prompts[l].invocations[n]
      ensures r.Ok? ==> forall x :: x in ledger.sessions && x != o ==> ledger.sessions[x] == old(ledger.sessions[x])
      ensures r.Err? ==> ledger == old(ledger) && (old(!storageError && !MayIntend(o, k, cancel, now)) ==> Model() == old(Model()))
    {
      var s := ledger.sessions[o];
      if s.retiring || s.prompts[k].closing || cancel || s.prompts[k].leaseExpires <= now {
        r := CommitLedger(false, Err(Closed), io);
      } else {
        var i := s.prompts[k].invocations[q].(state := Intent);
        r := CommitLedger(false, Ok(PutSession(ledger, o, PutInvocation(s, k, q, i))), io);
      }
    }

    /** The identity under which the remote accepted an inference. */
    method RecordResponseIdentity(o: Owner, k: PromptKey, q: nat, id: string, alias: string, io: Io) returns (r: Result<(), Error>)
      requires o in ledger.sessions && HasInvocation(ledger.sessions[o], k, q)
      modifies this
      ensures (Model(), r)
              == CommitSession(size, old(Model()), false, o, IdentityChange(old(ledger).sessions[o], k, q, id, alias), io)
    {
      var s := ledger.sessions[o];
      var taken := RemoteIDTaken(s, id);
      if taken {
        r := CommitLedger(false, Err(Conflict), io);
      } else {
        var i := s.prompts[k].invocations[q].(responseID := id, alias := alias, state := Accepted);
        s := PutInvocation(s, k, q, i);
        s := s.(responses := s.responses[alias := Link(id, k, false, false, map[])]);
        r := CommitLedger(false, Ok(PutSession(ledger, o, s)), io);
      }
    }

    /** A complete response: linked to its owner before any of it is exposed. */
    method CommitCompletedResponse(o: Owner, k: PromptKey, q: nat, summary: Summary, aliases: seq<string>, now: int, io: Io)
      returns (r: Result<(), Error>)
      requires o in ledger.sessions && HasInvocation(ledger.sessions[o], k, q) && |aliases| == |summary.calls|
      modifies this
      ensures (Model(), r)
              == CommitSession(size, old(Model()), true, o, CompleteChange(old(ledger).sessions[o], k, q, summary, aliases, now), io)
    {
      var next := CompletedRecord(ledger.sessions[o], k, q, summary, aliases, now);
      r := CommitLedger(true, OnSession(ledger, o, next), io);
    }

    method CompletedRecord(s: Session, k: PromptKey, q: nat, summary: Summary, aliases: seq<string>, now: int)
      returns (next: Result<Session, Error>)
      requires HasInvocation(s, k, q) && |aliases| == |summary.calls|
      ensures next == CompleteChange(s, k, q, summary, aliases, now)
    {
      var p, i := s.prompts[k], s.prompts[k].invocations[q];
      if i.responseID != summary.responseID || i.alias == "" || i.alias !in s.responses {
        return Err(Conflict);
      }
      if p.closing || p.leaseExpires <= now {
        return Err(Closed);
      }
      var calls := MapCalls(summary.calls, aliases);
      if calls.None? {
        return Err(Conflict);
      }
      var link := s.responses[i.alias].(completed := true, hasFunctions := |calls.value| != 0, callIDs := calls.value);
      p := WithInvocation(p, q, i.(state := Completed)).(lastAlias := i.alias);
      return Ok(s.(prompts := s.prompts[k := p], responses := s.responses[i.alias := link]));
    }

    method FinishRecord(s: Session, k: PromptKey, q: nat, outcome: Outcome) returns (t: Session)
      requires HasInvocation(s, k, q)
      ensures t == FinishChange(s, k, q, outcome)
    {
      t := s;
      if !outcome.Success? {
        var p := s.prompts[k].(closing := true);
        var i := p.invocations[q];
        match i.state {
          case Reserved => i := i.(state := Rejected);
          case Intent => i := i.(state := if outcome.AcceptanceUnknown? then Uncertain else Rejected);
          case _ =>
        }
        t := PutPrompt(s, k, WithInvocation(p, q, i));
        FinishByHand(s, k, q, outcome, t);
      }
    }

    /** The end of a request: whatever is known of it is recorded, and it is no longer active. */
    method Finish(o: Owner, k: PromptKey, q: nat, outcome: Outcome, io: Io) returns (r: Result<(), Error>)
      requires o in ledger.sessions && HasInvocation(ledger.sessions[o], k, q)
      modifies this
      ensures (Model(), r) == FinishInvocation(size, old(Model()), o, k, q, outcome, io)
    {
      hide Commit, FinishChange;
      var s := FinishRecord(ledger.sessions[o], k, q, outcome);
      r := CommitLedger(false, Ok(PutSession(ledger, o, s)), io);
      active := active - {o};
      cancelled := cancelled - {o};
    }

    /** A caller that went away closes its prompt. */
    method ClosePromptOf(o: Owner, k: PromptKey, io: Io)
      modifies this
      ensures Model() == CloseOwnerPrompt(size, old(Model()), o, k, io)
    {
      if !stopped {
        var next := ledger;
        if o in next.sessions && k in next.sessions[o].prompts {
          var s := next.sessions[o];
          next := PutSession(next, o, PutPrompt(s, k, s.prompts[k].(closing := true)));
        } else if o in next.sessions {
          assert next.sessions[o := next.sessions[o]] == next.sessions;
        }
        var _ := CommitLedger(false, Ok(next), io);
        if o in active && active[o] == k {
          cancelled := cancelled + {o};
        }
      }
    }

    method NeedsExpiry(now: int) returns (needed: bool)
      ensures needed <==> Expired(ledger, now)
    {
      needed := false;
      var owners := ledger.sessions.Keys;
      while owners != {}
        invariant owners <= ledger.sessions.Keys
        invariant needed <==> exists o :: o in ledger.sessions && o !in owners && SessionExpired(ledger.sessions[o], now)
      {
        var o :| o in owners;
        var found := AnyExpired(ledger.sessions[o], now);
        needed := needed || found;
        owners := owners - {o};
      }
      assert Expired(ledger, now) <==> exists o :: o in ledger.sessions && SessionExpired(ledger.sessions[o], now);
    }

    /** Close every prompt whose lease has run out. */
    method ExpireOnce(now: int, io: Io)
      modifies this
      ensures Model() == SweepExpired(size, old(Model()), now, io)
    {
      var needed := NeedsExpiry(now);
      if needed {
        var next := ledger;
        var rest := ledger.sessions.Keys;
        while rest != {}
          invariant rest <= ledger.sessions.Keys && next == ledger.(sessions := next.sessions) && next.sessions.Keys == ledger.sessions.Keys
          invariant forall o :: o in ledger.sessions ==>
                      next.sessions[o] == if o in rest then ledger.sessions[o] else ExpirePrompts(ledger.sessions[o], now)
          invariant Model() == old(Model())
        {
          var o :| o in rest;
          var t := ExpireEach(ledger.sessions[o], now);
          next := PutSession(next, o, t);
          rest := rest - {o};
        }
        assert next.sessions == Swept(ledger, now).sessions;
        assert next == Swept(ledger, now);
        var _ := CommitLedger(false, Ok(next), io);
      }
    }

    /** Cancel the requests of closed prompts. */
    method CancelClosing()
      modifies this
      ensures Model() == old(Model()).(cancelled := old(cancelled) + set o | o in active && ActiveClosing(old(Model()), o))
    {
      var rest := active.Keys;
      while rest != {}
        invariant rest <= active.Keys
        invariant Model() == old(Model()).(cancelled := cancelled)
        invariant cancelled == old(cancelled) + set o | o in active && o !in rest && ActiveClosing(old(Model()), o)
      {
        var o :| o in rest;
        if o in ledger.sessions && active[o] in ledger.sessions[o].prompts
           && ledger.sessions[o].prompts[active[o]].closing && !ledger.sessions[o].prompts[active[o]].settled {
          cancelled := cancelled + {o};
        }
        rest := rest - {o};
      }
    }

    /** One pass of the sweeper. */
    method SweepOnce(now: int, io: Io)
      modifies this
      ensures Model() == Sweep(size, old(Model()), now, io)
    {
      if !stopped {
        ExpireOnce(now, io);
        CancelClosing();
      }
    }

    /** The commit of a cleanup attempt, refused while a request is active. */
    method CommitCleanup(o: Owner, k: Worker, kind: Kind, now: int, io: Io) returns (r: Result<(), Error>)
      requires o in ledger.sessions && k.closing <= ledger.sessions[o].prompts.Keys
      modifies this
      ensures var next := if o in old(active) then Err(Pending)
                          else CleanupChange(old(ledger).sessions[o], k.closing, k.retiring, k.createState.Known?, kind, k.remote, now);
              (Model(), r) == CommitSession(size, old(Model()), false, o, next, io)
    {
      if o in active {
        r := CommitLedger(false, Err(Pending), io);
      } else {
        var next := CleanUp(ledger.sessions[o], k.closing, k.retiring, k.createState.Known?, kind, k.remote, now);
        r := CommitLedger(false, OnSession(ledger, o, next), io);
      }
    }

    /** What a caller is told about its owner. */
    method ControlResponse(c: Context) returns (r: Reply)
      ensures r == ControlReply(Model(), c)
    {
      hide CountsAmbiguous, CountsActive, PromptReply, OwnerReply, AmbiguousOnes, ActiveOnes, AmbiguousIn, ActiveIn, Among;
      if c.owner !in ledger.sessions {
        return NO_REPLY;
      }
      var s := ledger.sessions[c.owner];
      r := TellOwner(s);
      var unknown, busy := 0, 0;
      NoneAmong(Model(), c.owner, s, c);
      var rest := s.prompts.Keys;
      while rest != {}
        invariant rest <= s.prompts.Keys
        invariant r == if c.prompt.promptID != "" && c.prompt in s.prompts && c.prompt !in rest
                       then PromptReply(OwnerReply(s), s.prompts[c.prompt]) else OwnerReply(s)
        invariant unknown == |Among(AmbiguousOnes(Model(), c.owner, s, c), s.prompts.Keys - rest)|
        invariant busy == |Among(ActiveOnes(Model(), c.owner, s, c), s.prompts.Keys - rest)|
      {
        var k :| k in rest;
        OneMore(Model(), c.owner, s, c, s.prompts.Keys - rest, k);
        if AsksAbout(c, k) {
          r := TellPrompt(c, s.prompts[k], r);
          var u, v := CountInvocations(c.owner, k, s.prompts[k]);
          unknown, busy := unknown + u, busy + v;
        }
        assert s.prompts.Keys - (rest - {k}) == s.prompts.Keys - rest + {k};
        rest := rest - {k};
      }
      assert s.prompts.Keys - rest == s.prompts.Keys;
      r := r.(ambiguousInvocations := unknown, activeInvocations := busy);
      if r.createPending || r.ambiguousInvocations > 0 {
        r := r.(state := Blocked, settlementProven := false, retirementProven := false, proof := None);
      }
    }

    method TellOwner(s: Session) returns (r: Reply)
      ensures r == OwnerReply(s)
    {
      r := NO_REPLY.(createPending := s.createState.CreateIntent?,
                     remoteSessionCreated := s.createState.Known? || s.createState.Deleted?,
                     retirementProven := s.retired);
      if s.retiring && !s.retired {
        r := r.(state := Retiring);
      }
      if s.retired {
        r := r.(state := RetiredState, settlementProven := true, proof := s.proof);
      }
    }

    method TellPrompt(c: Context, p: Prompt, r0: Reply) returns (r: Reply)
      ensures r == if c.prompt.promptID != "" then PromptReply(r0, p) else r0
    {
      r := r0;
      if c.prompt.promptID != "" {
        r := r.(leaseGeneration := p.leaseGeneration, leaseExpires := p.leaseExpires, settlementProven := p.settled);
        if p.closing {
          r := r.(state := Settling);
        }
        if p.settled {
          r := r.(state := SettledState, proof := p.proof);
        }
      }
    }

    method CountInvocations(o: Owner, k: PromptKey, p: Prompt) returns (unknown: nat, busy: nat)
      ensures unknown == |AmbiguousIn(Model(), o, k, p)| && busy == |ActiveIn(Model(), o, k, p)|
    {
      hide CountsAmbiguous, CountsActive;
      unknown, busy := 0, 0;
      ghost var us: set<nat>, vs: set<nat> := {}, {};
      var rest := p.invocations.Keys;
      while rest != {}
        invariant rest <= p.invocations.Keys
        invariant us == AmbiguousIn(Model(), o, k, p) - rest && vs == ActiveIn(Model(), o, k, p) - rest
        invariant unknown == |us| && busy == |vs|
      {
        var q :| q in rest;
        var counts, runs := Classify(o, k, p, p.invocations[q]);
        if counts {
          unknown, us := unknown + 1, us + {q};
        }
        if runs {
          busy, vs := busy + 1, vs + {q};
        }
        rest := rest - {q};
      }
    }

    method Classify(o: Owner, k: PromptKey, p: Prompt, i: Invocation) returns (counts: bool, runs: bool)
      ensures counts == CountsAmbiguous(Model(), o, k, p, i) && runs == CountsActive(Model(), o, k, p, i)
    {
      counts, runs := false, false;
      match i.state {
        case Uncertain => counts := true;
        case Intent =>
          if o in active && active[o] == k && i.sequence == p.lastSequence {
            runs := true;
          } else {
            counts := true;
          }
        case Accepted | Reserved => runs := !p.settled;
        case _ =>
      }
    }
  }

  ghost function AmbiguousIn(b: Broker, o: Owner, k: PromptKey, p: Prompt): set<nat> {
    set q | q in p.invocations && CountsAmbiguous(b, o, k, p, p.invocations[q])
  }

  ghost function ActiveIn(b: Broker, o: Owner, k: PromptKey, p: Prompt): set<nat> {
    set q | q in p.invocations && CountsActive(b, o, k, p, p.invocations[q])
  }

  /** Those that belong to some of the prompts. */
  ghost function Among(ones: set<(PromptKey, nat)>, ks: set<PromptKey>): set<(PromptKey, nat)> {
    set x | x in ones && x.0 in ks
  }

  lemma NoneAmong(b: Broker, o: Owner, s: Session, c: Context)
    ensures Among(AmbiguousOnes(b, o, s, c), s.prompts.Keys - s.prompts.Keys) == {}
    ensures Among(ActiveOnes(b, o, s, c), s.prompts.Keys - s.prompts.Keys) == {}
    ensures Among(AmbiguousOnes(b, o, s, c), s.prompts.Keys) == AmbiguousOnes(b, o, s, c)
    ensures Among(ActiveOnes(b, o, s, c), s.prompts.Keys) == ActiveOnes(b, o, s, c)
  {
  }

  /** One more prompt adds what is counted in it, if it is asked about. */
  lemma OneMore(b: Broker, o: Owner, s: Session, c: Context, ks: set<PromptKey>, k: PromptKey)
    requires k in s.prompts && k !in ks
    ensures var more := if AsksAbout(c, k) then |AmbiguousIn(b, o, k, s.prompts[k])| else 0;
            |Among(AmbiguousOnes(b, o, s, c), ks + {k})| == |Among(AmbiguousOnes(b, o, s, c), ks)| + more
    ensures var more := if AsksAbout(c, k) then |ActiveIn(b, o, k, s.prompts[k])| else 0;
            |Among(ActiveOnes(b, o, s, c), ks + {k})| == |Among(ActiveOnes(b, o, s, c), ks)| + more
  {
    hide CountsAmbiguous, CountsActive;
    AddPairs(AmbiguousOnes(b, o, s, c), ks, k, if AsksAbout(c, k) then AmbiguousIn(b, o, k, s.prompts[k]) else {});
    AddPairs(ActiveOnes(b, o, s, c), ks, k, if AsksAbout(c, k) then ActiveIn(b, o, k, s.prompts[k]) else {});
  }

  lemma AddPairs(ones: set<(PromptKey, nat)>, ks: set<PromptKey>, k: PromptKey, qs: set<nat>)
    requires k !in ks && forall q: nat :: (k, q) in ones <==> q in qs
    ensures |Among(ones, ks + {k})| == |Among(ones, ks)| + |qs|
  {
    PairedSize(k, qs);
    assert Among(ones, ks + {k}) == Among(ones, ks) + Paired(k, qs) by {
      forall x | x in ones && x.0 == k ensures x in Paired(k, qs) { assert x == (k, x.1); }
    }
  }

  ghost function Paired(k: PromptKey, qs: set<nat>): set<(PromptKey, nat)> {
    set q | q in qs :: (k, q)
  }

  lemma {:induction false} PairedSize(k: PromptKey, qs: set<nat>)
    ensures |Paired(k, qs)| == |qs|
  {
    if qs != {} {
      var q :| q in qs;
      PairedSize(k, qs - {q});
      assert Paired(k, qs) == Paired(k, qs - {q}) + {(k, q)};
    }
  }

  predicate SessionExpired(s: Session, now: int) {
    exists k :: k in s.prompts && !s.prompts[k].closing && s.prompts[k].leaseExpires <= now
  }

  method AnyExpired(s: Session, now: int) returns (found: bool)
    ensures found == SessionExpired(s, now)
  {
    var rest := s.prompts.Keys;
    while rest != {}
      invariant rest <= s.prompts.Keys
      invariant forall k :: k in s.prompts && k !in rest ==> s.prompts[k].closing || s.prompts[k].leaseExpires > now
    {
      var k :| k in rest;
      if !s.prompts[k].closing && s.prompts[k].leaseExpires <= now {
        return true;
      }
      rest := rest - {k};
    }
    return false;
  }

  lemma RecoveredByHand(file: Ledger, next: Ledger)
    requires next == file.(sessions := next.sessions) && next.sessions.Keys == file.sessions.Keys
    requires forall o :: o in file.sessions ==> next.sessions[o] == RecoverPrompts(file.sessions[o])
    ensures next == Recovered(file)
  {
    hide RecoverPrompts;
    assert next.sessions == Recovered(file).sessions;
  }

  lemma FinishByHand(s: Session, k: PromptKey, q: nat, outcome: Outcome, t: Session)
    requires HasInvocation(s, k, q) && !outcome.Success?
    requires t == PutPrompt(s, k, WithInvocation(s.prompts[k].(closing := true), q,
                    s.prompts[k].invocations[q].(state := FinalState(s.prompts[k].invocations[q].state, outcome))))
    ensures t == FinishChange(s, k, q, outcome)
  {
  }
}
