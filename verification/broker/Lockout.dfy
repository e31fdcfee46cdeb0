/** A whole run, from an empty store, after which the broker cannot reopen its own ledger: one call named with a space. */
module BrokerLockout {
  import opened Wrappers
  import opened Text
  import opened BrokerLedger
  import opened BrokerChanges
  import opened BrokerSystem
  import opened BrokerReopening

  // The owner's record before each change of it.
  const INFERRING := Invocation(1, "x", SOME_DIGEST, Reserved, "", "")

  const RESERVED := Session(
    SOME_OWNER, "", NotCreated, false, false, None, Some(SOME_PROMPT),
    map[SOME_PROMPT := Prompt(SOME_CONTEXT, 1, 100, false, false, None, 1, "", map[1 := INFERRING])],
    map[],
    map["x" := OpDigest(Responses, SOME_CONTEXT)])

  const CREATING := RESERVED.(remoteID := SOME_UUID, createState := CreateIntent)

  const CREATED := RESERVED.(remoteID := SOME_UUID, createState := Known)

  const ASKED := CREATED.(prompts := map[SOME_PROMPT := Prompt(SOME_CONTEXT, 1, 100, false, false, None, 1, "",
                                                               map[1 := INFERRING.(state := Intent)])])

  function Completed(): Result<Session, Error> {
    CompleteChange(STREAMING, SOME_PROMPT, 1, SPACED, [SOME_CALL], 1)
  }

  const PINNED := Ledger(SOME_DIGEST, SOME_DIGEST, map[])

  function Holding(o: Owner, m: Session): Ledger {
    Ledger(SOME_DIGEST, SOME_DIGEST, map[o := m])
  }

  /** A broker with one owner, and one request of it for the first inference of prompt `k`. */
  function Stage(o: Owner, k: PromptKey, m: Session, pc: Pc, worlds: map<Owner, World>): System {
    System(Broker(Holding(o, m), Holding(o, m), false, false, map[o := k], {}), true,
           map[o := Proc(k, 1, "x", pc)], map[], worlds, 1)
  }

  function SomeStage(m: Session, pc: Pc, worlds: map<Owner, World>): System {
    Stage(SOME_OWNER, SOME_PROMPT, m, pc, worlds)
  }

  function Told(w: World): map<Owner, World> {
    map[SOME_OWNER := w]
  }

  const SOME_PROC := Proc(SOME_PROMPT, 1, "x", InferReady(SOME_UUID))

  const SOME_KEY := InferKey(SOME_PROMPT, 1)

  function Sent(): World {
    SentCreate(NOTHING, SOME_UUID)
  }

  function Acked(): World {
    AckedCreate(Sent(), SOME_UUID)
  }

  function Asking(): World {
    SentInfer(Acked(), SOME_PROC)
  }

  function Answered(): World {
    AckedInfer(Asking(), SOME_KEY)
  }

  const SOME_REQUEST := Request(Input.Text("hello"), "")

  const START: seq<Event> := [Pinning(SOME_DIGEST, Saved), Reserving(SOME_CONTEXT, SOME_REQUEST, true, 1, Saved)]

  function Does(step: ProcEvent): Event {
    ProcMoves(SOME_OWNER, step)
  }

  const CREATION: seq<Event> :=
    [Does(PrepareCreate(SOME_UUID)), Does(CommitCreateIntent(false, Saved)), Does(SendCreate), Does(CreateAcknowledged),
     Does(CommitCreateResult(Saved))]

  const INFERENCE: seq<Event> :=
    [Does(CommitInferIntent(Saved)), Does(SendInfer), Does(Identity("r", true, SOME_ALIAS, Saved)),
     Does(Complete(SPACED, [SOME_CALL], Saved))]

  const SPACED_RUN := START + CREATION + INFERENCE

  /** These few small ledgers have a reasonable length. */
  ghost predicate Small(size: Ledger -> nat) {
    && size(PINNED) <= 10000 && size(Holding(SOME_OWNER, RESERVED)) <= 10000 && size(Holding(SOME_OWNER, CREATING)) <= 10000
    && size(Holding(SOME_OWNER, CREATED)) <= 10000 && size(Holding(SOME_OWNER, ASKED)) <= 10000 && size(Holding(SOME_OWNER, STREAMING)) <= 10000
    && (Completed().Ok? ==> size(Holding(SOME_OWNER, Completed().value)) <= 10000)
  }

  // ---------------------------------------------------------------------------
  // Events, one by one
  // ---------------------------------------------------------------------------

  lemma RunMore(size: Ledger -> nat, s: System, events: seq<Event>, e: Event)
    ensures Run(size, s, events + [e]) == Apply(size, Run(size, s, events), e)
  {
    assert (events + [e])[..|events|] == events;
  }

  lemma {:induction false} RunSplit(size: Ledger -> nat, s: System, events: seq<Event>, more: seq<Event>)
    ensures Run(size, s, events + more) == Run(size, Run(size, s, events), more)
  {
    if more == [] {
      assert events + more == events;
    } else {
      var last := |more| - 1;
      assert events + more == events + more[..last] + [more[last]];
      RunMore(size, s, events + more[..last], more[last]);
      RunSplit(size, s, events, more[..last]);
    }
  }

  /** A broker with nothing to do. */
  function Idle(l: Ledger): System {
    System(Broker(l, l, false, false, map[], {}), true, map[], map[], map[], 1)
  }

  lemma Pins(size: Ledger -> nat, configDigest: string, digest: string)
    requires DigestValid(digest) && size(Ledger(configDigest, digest, map[])) <= 10000
    ensures Apply(size, Initial(configDigest, 1), Pinning(digest, Saved)) == Idle(Ledger(configDigest, digest, map[]))
  {
    hide DigestValid;
    assert digest != "" by { DigestLong(digest); }
  }

  lemma DigestLong(digest: string)
    requires DigestValid(digest)
    ensures digest != ""
  {
  }

  lemma Admits(size: Ledger -> nat, l: Ledger, c: Context, r: Request, n: Ledger, sent: Request)
    requires ParsedContext(Responses, c, 1) && ReserveNext(l, c, r, true, 1) == Ok((n, sent)) && r.input.Text?
    requires size(n) <= 10000 && ReserveBytes(n) == OWNER_RESERVE_BYTES
    ensures Apply(size, Idle(l), Reserving(c, r, true, 1, Saved))
            == System(Broker(n, n, false, false, map[c.owner := c.prompt], {}), true,
                      map[c.owner := Proc(c.prompt, c.sequence, c.operationID, Started)], map[], map[], 1)
  {
    hide ParsedContext, ReserveNext, ReserveBytes;
  }

  lemma ReservedRecord()
    ensures ReserveChange(EmptySession(SOME_OWNER), SOME_CONTEXT, SOME_REQUEST, true, 1) == Ok((RESERVED, SOME_REQUEST))
  {
    var s := EmptySession(SOME_OWNER);
    var s1 := s.(operations := map["x" := OpDigest(Responses, SOME_CONTEXT)]);
    assert RecordOperation(s, Responses, SOME_CONTEXT) == Ok((s1, false));
    var s2 := AddPrompt(s1, SOME_CONTEXT);
    assert EnsurePrompt(s1, SOME_CONTEXT) == Ok(s2);
    assert s2.prompts[SOME_PROMPT] == NewPrompt(SOME_CONTEXT);
    assert TranslatePrevious(s2, SOME_PROMPT, true, SOME_REQUEST) == Ok(SOME_REQUEST);
    var p := NewPrompt(SOME_CONTEXT).(lastSequence := 1, invocations := map[1 := INFERRING]);
    assert NewPrompt(SOME_CONTEXT).invocations[1 := INFERRING] == map[1 := INFERRING];
    assert PutPrompt(s2, SOME_PROMPT, p) == RESERVED by {
      assert s2.prompts[SOME_PROMPT := p] == map[SOME_PROMPT := p];
    }
  }

  lemma ReservedNext()
    ensures ReserveNext(PINNED, SOME_CONTEXT, SOME_REQUEST, true, 1) == Ok((Holding(SOME_OWNER, RESERVED), SOME_REQUEST))
  {
    hide ReserveChange;
    ReservedRecord();
    assert PutSession(PINNED, SOME_OWNER, RESERVED) == Holding(SOME_OWNER, RESERVED);
  }

  lemma SomeParsed()
    ensures ParsedContext(Responses, SOME_CONTEXT, 1)
  {
    hide SafeString, DigestValid, OwnerValid;
    SomeTexts();
  }

  lemma Reserves(size: Ledger -> nat)
    requires Small(size)
    ensures Apply(size, Idle(PINNED), Reserving(SOME_CONTEXT, SOME_REQUEST, true, 1, Saved)) == SomeStage(RESERVED, Started, map[])
  {
    hide Apply, ReserveNext, ParsedContext, ReserveBytes, Idle;
    SomeParsed();
    ReservedNext();
    OneLive(SOME_OWNER, RESERVED);
    Admits(size, PINNED, SOME_CONTEXT, SOME_REQUEST, Holding(SOME_OWNER, RESERVED), SOME_REQUEST);
  }

  // ---------------------------------------------------------------------------
  // Steps of a request, for any owner and prompt
  // ---------------------------------------------------------------------------

  lemma OneLive(o: Owner, m: Session)
    requires !m.retired
    ensures ReserveBytes(Holding(o, m)) == OWNER_RESERVE_BYTES
  {
    assert LiveOwners(Holding(o, m)) == {o};
  }

  lemma Steps(size: Ledger -> nat, o: Owner, k: PromptKey, m: Session, pc: Pc, worlds: map<Owner, World>, step: ProcEvent)
    requires HasInvocation(m, k, 1)
    ensures Apply(size, Stage(o, k, m, pc, worlds), ProcMoves(o, step)) == ProcStep(size, Stage(o, k, m, pc, worlds), o, step)
  {
    hide ProcStep;
  }

  /** A change of the one record, by its request. */
  lemma Commits(size: Ledger -> nat, o: Owner, k: PromptKey, m: Session, pc: Pc, worlds: map<Owner, World>, ordinary: bool,
                next: Session, done: Pc, failed: Pc)
    requires !next.retired && size(Holding(o, next)) <= 10000
    ensures ProcCommit(size, Stage(o, k, m, pc, worlds), ordinary, o, Ok(next), Saved, done, failed) == Stage(o, k, next, done, worlds)
  {
    hide ReserveBytes;
    OneLive(o, next);
    assert PutSession(Holding(o, m), o, next) == Holding(o, next);
  }

  lemma Prepares(size: Ledger -> nat, o: Owner, k: PromptKey, m: Session, remote: string)
    requires HasInvocation(m, k, 1) && m.createState.NotCreated? && UuidValid(remote)
    ensures Apply(size, Stage(o, k, m, Started, map[]), ProcMoves(o, PrepareCreate(remote))) == Stage(o, k, m, Prepared(remote), map[])
  {
    hide UuidValid, ProcCommit, Apply;
    Steps(size, o, k, m, Started, map[], PrepareCreate(remote));
  }

  lemma IntendsCreation(size: Ledger -> nat, o: Owner, k: PromptKey, m: Session, remote: string, n: Session)
    requires HasInvocation(m, k, 1) && CreateIntentChange(m, k, remote, false, 1) == Ok(n) && !n.retired && size(Holding(o, n)) <= 10000
    ensures Apply(size, Stage(o, k, m, Prepared(remote), map[]), ProcMoves(o, CommitCreateIntent(false, Saved)))
            == Stage(o, k, n, CreateReady(remote), map[])
  {
    hide ProcCommit, Apply, CreateIntentChange;
    Steps(size, o, k, m, Prepared(remote), map[], CommitCreateIntent(false, Saved));
    Commits(size, o, k, m, Prepared(remote), map[], false, n, CreateReady(remote), Ended(Failed));
  }

  lemma SendsCreation(size: Ledger -> nat, o: Owner, k: PromptKey, m: Session, remote: string)
    requires HasInvocation(m, k, 1)
    ensures Apply(size, Stage(o, k, m, CreateReady(remote), map[]), ProcMoves(o, SendCreate))
            == Stage(o, k, m, CreateSent(remote), map[o := SentCreate(NOTHING, remote)])
  {
    hide ProcCommit, Apply, SentCreate;
    Steps(size, o, k, m, CreateReady(remote), map[], SendCreate);
  }

  lemma HearsCreation(size: Ledger -> nat, o: Owner, k: PromptKey, m: Session, remote: string, w: World)
    requires HasInvocation(m, k, 1)
    ensures Apply(size, Stage(o, k, m, CreateSent(remote), map[o := w]), ProcMoves(o, CreateAcknowledged))
            == Stage(o, k, m, CreateAnswered(remote, true), map[o := AckedCreate(w, remote)])
  {
    hide ProcCommit, Apply, AckedCreate;
    Steps(size, o, k, m, CreateSent(remote), map[o := w], CreateAcknowledged);
  }

  lemma RecordsCreation(size: Ledger -> nat, o: Owner, k: PromptKey, m: Session, remote: string, w: World, n: Session)
    requires HasInvocation(m, k, 1) && n == CreateResultChange(m, true) && !n.retired && size(Holding(o, n)) <= 10000
    ensures Apply(size, Stage(o, k, m, CreateAnswered(remote, true), map[o := w]), ProcMoves(o, CommitCreateResult(Saved)))
            == Stage(o, k, n, SessionReady(remote), map[o := w])
  {
    hide ProcCommit, Apply, CreateResultChange;
    Steps(size, o, k, m, CreateAnswered(remote, true), map[o := w], CommitCreateResult(Saved));
    Commits(size, o, k, m, CreateAnswered(remote, true), map[o := w], false, n, SessionReady(remote), Ended(Failed));
  }

  lemma IntendsInference(size: Ledger -> nat, o: Owner, k: PromptKey, m: Session, remote: string, w: World, n: Session)
    requires HasInvocation(m, k, 1) && InferIntentChange(m, k, 1, false, 1) == Ok(n) && !n.retired && size(Holding(o, n)) <= 10000
    ensures Apply(size, Stage(o, k, m, SessionReady(remote), map[o := w]), ProcMoves(o, CommitInferIntent(Saved)))
            == Stage(o, k, n, InferReady(remote), map[o := w])
  {
    hide ProcCommit, Apply, InferIntentChange;
    Steps(size, o, k, m, SessionReady(remote), map[o := w], CommitInferIntent(Saved));
    Commits(size, o, k, m, SessionReady(remote), map[o := w], false, n, InferReady(remote), Ended(Failed));
  }

  lemma SendsInference(size: Ledger -> nat, o: Owner, k: PromptKey, m: Session, remote: string, w: World)
    requires HasInvocation(m, k, 1)
    ensures Apply(size, Stage(o, k, m, InferReady(remote), map[o := w]), ProcMoves(o, SendInfer))
            == Stage(o, k, m, InferSent(remote), map[o := SentInfer(w, Proc(k, 1, "x", InferReady(remote)))])
  {
    hide ProcCommit, Apply, SentInfer;
    Steps(size, o, k, m, InferReady(remote), map[o := w], SendInfer);
  }

  lemma Accepts(size: Ledger -> nat, o: Owner, k: PromptKey, m: Session, remote: string, w: World, id: string, alias: string, n: Session)
    requires HasInvocation(m, k, 1) && m.prompts[k].invocations[1].responseID == "" && m.responses == map[]
    requires id != "" && IdentifierValid(id) && AliasValid(alias, RESPONSE_PREFIX)
    requires IdentityChange(m, k, 1, id, alias) == Ok(n) && !n.retired && size(Holding(o, n)) <= 10000
    ensures Apply(size, Stage(o, k, m, InferSent(remote), map[o := w]), ProcMoves(o, Identity(id, true, alias, Saved)))
            == Stage(o, k, n, Streaming(remote, id), map[o := AckedInfer(w, InferKey(k, 1))])
  {
    hide ProcCommit, Apply, AckedInfer, IdentifierValid, AliasValid, IdentityChange;
    var v := map[o := AckedInfer(w, InferKey(k, 1))];
    Steps(size, o, k, m, InferSent(remote), map[o := w], Identity(id, true, alias, Saved));
    Commits(size, o, k, m, InferSent(remote), v, false, n, Streaming(remote, id), Ended(AcceptanceUnknown));
    assert SetWorld(Stage(o, k, m, InferSent(remote), map[o := w]), o, AckedInfer(w, InferKey(k, 1))) == Stage(o, k, m, InferSent(remote), v);
  }

  lemma CompletesNow(size: Ledger -> nat, o: Owner, k: PromptKey, m: Session, remote: string, id: string, w: World, r: Summary,
                     aliases: seq<string>, n: Session)
    requires HasInvocation(m, k, 1) && |aliases| == |r.calls| && FreshAliases(aliases)
    requires CompleteChange(m, k, 1, r, aliases, 1) == Ok(n) && !n.retired && size(Holding(o, n)) <= 10000
    ensures Apply(size, Stage(o, k, m, Streaming(remote, id), map[o := w]), ProcMoves(o, Complete(r, aliases, Saved)))
            == Stage(o, k, n, Ended(Success), map[o := w])
  {
    hide ProcCommit, Apply, CompleteChange, FreshAliases;
    Steps(size, o, k, m, Streaming(remote, id), map[o := w], Complete(r, aliases, Saved));
    Commits(size, o, k, m, Streaming(remote, id), map[o := w], true, n, Ended(Success), Ended(Failed));
  }

  // ---------------------------------------------------------------------------
  // The steps of this run
  // ---------------------------------------------------------------------------

  lemma Invoked()
    ensures HasInvocation(RESERVED, SOME_PROMPT, 1) && HasInvocation(CREATING, SOME_PROMPT, 1) && HasInvocation(CREATED, SOME_PROMPT, 1)
    ensures HasInvocation(ASKED, SOME_PROMPT, 1) && HasInvocation(STREAMING, SOME_PROMPT, 1)
  {
  }

  lemma Creates(size: Ledger -> nat)
    requires Small(size)
    ensures Apply(size, SomeStage(RESERVED, Started, map[]), Does(PrepareCreate(SOME_UUID))) == SomeStage(RESERVED, Prepared(SOME_UUID), map[])
    ensures Apply(size, SomeStage(RESERVED, Prepared(SOME_UUID), map[]), Does(CommitCreateIntent(false, Saved)))
            == SomeStage(CREATING, CreateReady(SOME_UUID), map[])
  {
    hide Apply, UuidValid, HasInvocation;
    SomeTexts();
    Invoked();
    Prepares(size, SOME_OWNER, SOME_PROMPT, RESERVED, SOME_UUID);
    IntendsCreation(size, SOME_OWNER, SOME_PROMPT, RESERVED, SOME_UUID, CREATING);
  }

  lemma IsCreated(size: Ledger -> nat)
    requires Small(size)
    ensures Apply(size, SomeStage(CREATING, CreateReady(SOME_UUID), map[]), Does(SendCreate))
            == SomeStage(CREATING, CreateSent(SOME_UUID), Told(Sent()))
    ensures Apply(size, SomeStage(CREATING, CreateSent(SOME_UUID), Told(Sent())), Does(CreateAcknowledged))
            == SomeStage(CREATING, CreateAnswered(SOME_UUID, true), Told(Acked()))
    ensures Apply(size, SomeStage(CREATING, CreateAnswered(SOME_UUID, true), Told(Acked())), Does(CommitCreateResult(Saved)))
            == SomeStage(CREATED, SessionReady(SOME_UUID), Told(Acked()))
  {
    hide Apply, HasInvocation, SentCreate, AckedCreate;
    Invoked();
    SendsCreation(size, SOME_OWNER, SOME_PROMPT, CREATING, SOME_UUID);
    HearsCreation(size, SOME_OWNER, SOME_PROMPT, CREATING, SOME_UUID, Sent());
    RecordsCreation(size, SOME_OWNER, SOME_PROMPT, CREATING, SOME_UUID, Acked(), CREATED);
  }

  lemma AskedRecord()
    ensures InferIntentChange(CREATED, SOME_PROMPT, 1, false, 1) == Ok(ASKED)
  {
    var i := INFERRING.(state := Intent);
    assert map[1 := INFERRING][1 := i] == map[1 := i];
    var p := Prompt(SOME_CONTEXT, 1, 100, false, false, None, 1, "", map[1 := i]);
    assert CREATED.prompts[SOME_PROMPT := p] == map[SOME_PROMPT := p];
  }

  lemma Asks(size: Ledger -> nat)
    requires Small(size)
    ensures Apply(size, SomeStage(CREATED, SessionReady(SOME_UUID), Told(Acked())), Does(CommitInferIntent(Saved)))
            == SomeStage(ASKED, InferReady(SOME_UUID), Told(Acked()))
    ensures Apply(size, SomeStage(ASKED, InferReady(SOME_UUID), Told(Acked())), Does(SendInfer))
            == SomeStage(ASKED, InferSent(SOME_UUID), Told(Asking()))
  {
    hide Apply, HasInvocation, InferIntentChange, SentInfer;
    Invoked();
    AskedRecord();
    IntendsInference(size, SOME_OWNER, SOME_PROMPT, CREATED, SOME_UUID, Acked(), ASKED);
    SendsInference(size, SOME_OWNER, SOME_PROMPT, ASKED, SOME_UUID, Acked());
  }

  lemma AcceptedRecord()
    ensures IdentityChange(ASKED, SOME_PROMPT, 1, "r", SOME_ALIAS) == Ok(STREAMING)
  {
    var i := INFERRING.(state := Intent);
    assert map[1 := i][1 := SOME_INVOCATION] == map[1 := SOME_INVOCATION];
    var p := STREAMING.prompts[SOME_PROMPT];
    assert AcceptedPrompt(ASKED.prompts[SOME_PROMPT], 1, "r", SOME_ALIAS) == p;
    assert ASKED.prompts[SOME_PROMPT := p] == map[SOME_PROMPT := p];
    var link := Link("r", SOME_PROMPT, false, false, map[]);
    assert ASKED.responses[SOME_ALIAS := link] == map[SOME_ALIAS := link];
  }

  lemma IsAccepted(size: Ledger -> nat)
    requires Small(size)
    ensures Apply(size, SomeStage(ASKED, InferSent(SOME_UUID), Told(Asking())), Does(Identity("r", true, SOME_ALIAS, Saved)))
            == SomeStage(STREAMING, Streaming(SOME_UUID, "r"), Told(Answered()))
  {
    hide Apply, IdentityChange, AckedInfer, AliasValid, IdentifierValid;
    SomeTexts();
    AcceptedRecord();
    Accepts(size, SOME_OWNER, SOME_PROMPT, ASKED, SOME_UUID, Asking(), "r", SOME_ALIAS, STREAMING);
  }

  lemma IsCompleted(size: Ledger -> nat)
    requires Small(size)
    ensures Completed().Ok?
    ensures Apply(size, SomeStage(STREAMING, Streaming(SOME_UUID, "r"), Told(Answered())), Does(Complete(SPACED, [SOME_CALL], Saved)))
            == SomeStage(Completed().value, Ended(Success), Told(Answered()))
  {
    hide Apply, CompleteChange, AliasValid, HasInvocation, SessionAccepted, UuidValid, DigestValid, SafeString, IdentifierValid, OwnerValid, Answered;
    SomeTexts();
    Invoked();
    SpacedCallLocksOut();
    NotRetired();
    CompletesNow(size, SOME_OWNER, SOME_PROMPT, STREAMING, SOME_UUID, "r", Answered(), SPACED, [SOME_CALL], Completed().value);
  }

  lemma NotRetired()
    requires Completed().Ok?
    ensures !Completed().value.retired
  {
  }

  // ---------------------------------------------------------------------------
  // The run
  // ---------------------------------------------------------------------------

  lemma StartRun(size: Ledger -> nat)
    requires Small(size)
    ensures Run(size, Initial(SOME_DIGEST, 1), START) == SomeStage(RESERVED, Started, map[])
  {
    hide Apply, Initial, SomeStage, Idle, DigestValid;
    SomeTexts();
    Pins(size, SOME_DIGEST, SOME_DIGEST);
    Reserves(size);
    assert START == [] + [START[0]] + [START[1]];
    RunMore(size, Initial(SOME_DIGEST, 1), [], START[0]);
    RunMore(size, Initial(SOME_DIGEST, 1), [] + [START[0]], START[1]);
  }

  lemma CreationRun(size: Ledger -> nat)
    requires Small(size)
    ensures Run(size, SomeStage(RESERVED, Started, map[]), CREATION) == SomeStage(CREATED, SessionReady(SOME_UUID), Told(Acked()))
  {
    hide Apply, SomeStage, Told, Acked, Sent, Does, Small;
    Creates(size);
    IsCreated(size);
    var s := SomeStage(RESERVED, Started, map[]);
    var c := CREATION;
    assert c == [] + [c[0]] + [c[1]] + [c[2]] + [c[3]] + [c[4]];
    RunMore(size, s, [], c[0]);
    RunMore(size, s, [] + [c[0]], c[1]);
    RunMore(size, s, [] + [c[0]] + [c[1]], c[2]);
    RunMore(size, s, [] + [c[0]] + [c[1]] + [c[2]], c[3]);
    RunMore(size, s, [] + [c[0]] + [c[1]] + [c[2]] + [c[3]], c[4]);
  }

  lemma InferenceRun(size: Ledger -> nat)
    requires Small(size)
    ensures Completed().Ok?
    ensures var s := SomeStage(CREATED, SessionReady(SOME_UUID), Told(Acked()));
            Run(size, s, INFERENCE) == SomeStage(Completed().value, Ended(Success), Told(Answered()))
  {
    hide Apply, SomeStage, Told, Acked, Asking, Answered, Completed, Does;
    Asks(size);
    IsAccepted(size);
    IsCompleted(size);
    var s := SomeStage(CREATED, SessionReady(SOME_UUID), Told(Acked()));
    var c := INFERENCE;
    assert c == [] + [c[0]] + [c[1]] + [c[2]] + [c[3]];
    RunMore(size, s, [], c[0]);
    RunMore(size, s, [] + [c[0]], c[1]);
    RunMore(size, s, [] + [c[0]] + [c[1]], c[2]);
    RunMore(size, s, [] + [c[0]] + [c[1]] + [c[2]], c[3]);
  }

  /**
   From an empty store: the account is pinned, one request is admitted, its session is created, its
   inference is accepted, and the provider completes it with a call named "a b". The completion is
   committed, and the ledger it leaves on disk fails the restart check.
   */
  lemma SpacedRunLocksOut(size: Ledger -> nat)
    requires Small(size)
    ensures !LedgerValid(Run(size, Initial(SOME_DIGEST, 1), SPACED_RUN).b.disk, SOME_DIGEST)
  {
    hide Run, SessionAccepted, Told, Answered;
    StartRun(size);
    CreationRun(size);
    InferenceRun(size);
    RunSplit(size, Initial(SOME_DIGEST, 1), START + CREATION, INFERENCE);
    RunSplit(size, Initial(SOME_DIGEST, 1), START, CREATION);
    SpacedCallLocksOut();
    assert Holding(SOME_OWNER, Completed().value).sessions[SOME_OWNER] == Completed().value;
  }
}
