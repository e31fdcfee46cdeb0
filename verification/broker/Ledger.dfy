/** The broker's durable ownership records and the check a restart makes on them. */
module BrokerLedger {
  import opened Wrappers
  import opened Text

  const MAX_OWNERS: nat := 4096
  const MAX_PROMPTS: nat := 4096

  // A settlement cannot take the last slot, which is kept for retirement.
  const OPERATION_LIMIT: nat := 16384
  const SETTLEMENT_OPERATION_LIMIT: nat := OPERATION_LIMIT + 1
  const RETIREMENT_OPERATION_LIMIT: nat := SETTLEMENT_OPERATION_LIMIT + 1

  const MAX_UINT64: nat := 0xffff_ffff_ffff_ffff

  // Times are nanoseconds from the zero time of the clock library.
  const ZERO_TIME: int := 0

  // Identifiers are their text; "" is an absent one. Response and call aliases are a
  // three-character prefix and the canonical text of a UUID.
  const RESPONSE_PREFIX := "fr_"
  const CALL_PREFIX := "fc_"

  predicate AliasValid(s: string, prefix: string) {
    prefix <= s && UuidValid(s[|prefix|..])
  }

  datatype Error = Invalid | Conflict | Closed | Pending | Storage | Remote | Ambiguous | Capacity

  datatype Owner = Owner(
    runtimeInstanceID: string,
    supervisorBootID: string,
    controllerEpoch: nat,
    poolUID: string,
    poolGeneration: nat,
    sessionUID: string,
    sessionGeneration: nat,
    profileDigest: string,
    profileSchemaVersion: nat)

  predicate OwnerValid(o: Owner) {
    && SafeString(o.runtimeInstanceID, MAX_FIELD_BYTES) && SafeString(o.supervisorBootID, MAX_FIELD_BYTES)
    && o.controllerEpoch > 0 && SafeString(o.poolUID, MAX_FIELD_BYTES) && o.poolGeneration > 0
    && SafeString(o.sessionUID, MAX_FIELD_BYTES) && o.sessionGeneration > 0
    && DigestValid(o.profileDigest) && o.profileSchemaVersion == 1
  }

  // Digests of records are represented by the records themselves: equal digests, equal records.
  datatype PromptKey = PromptKey(taskUID: string, taskAttempt: nat, promptID: string, requestDigest: string)

  datatype Context = Context(
    owner: Owner,
    prompt: PromptKey,
    leaseGeneration: nat,
    leaseExpires: int,
    operationID: string,
    sequence: nat,
    bodyDigest: string)

  datatype Path = Responses | Renew | Settle | Retire

  datatype OpDigest = OpDigest(path: Path, context: Context)

  datatype CreateState = NotCreated | CreateIntent | Known | Deleted

  datatype InvocationState = Reserved | Intent | Accepted | Completed | Rejected | Uncertain | Finalized

  datatype Kind = NeverCreated | Quiescent | StopIdle | DeletedGone

  datatype Proof = Proof(owner: Owner, prompt: Option<PromptKey>, remote: string, kind: Kind, at: int)

  datatype Link = Link(
    remoteID: string,
    prompt: PromptKey,
    completed: bool,
    hasFunctions: bool,
    callIDs: map<string, string>)

  datatype Invocation = Invocation(
    sequence: nat,
    operationID: string,
    bodyDigest: string,
    state: InvocationState,
    responseID: string,
    alias: string)

  datatype Prompt = Prompt(
    identity: Context,
    leaseGeneration: nat,
    leaseExpires: int,
    closing: bool,
    settled: bool,
    proof: Option<Proof>,
    lastSequence: nat,
    lastAlias: string,
    invocations: map<nat, Invocation>)

  datatype Session = Session(
    owner: Owner,
    remoteID: string,
    createState: CreateState,
    retiring: bool,
    retired: bool,
    proof: Option<Proof>,
    current: Option<PromptKey>,
    prompts: map<PromptKey, Prompt>,
    responses: map<string, Link>,
    operations: map<string, OpDigest>)

  datatype Ledger = Ledger(configDigest: string, principal: string, sessions: map<Owner, Session>)

  function EmptySession(o: Owner): Session {
    Session(o, "", NotCreated, false, false, None, None, map[], map[], map[])
  }

  // ---------------------------------------------------------------------------
  // The restart check, in three parts: structure, texts, and two checks that
  // admission does not make for every request.
  // ---------------------------------------------------------------------------

  ghost predicate LinkValid(link: Link, k: PromptKey, i: Invocation) {
    && link.remoteID == i.responseID
    && link.prompt == k
    && (link.completed <==> i.state.Completed?)
    && (link.hasFunctions <==> |link.callIDs| > 0)
    && (!link.completed ==> |link.callIDs| == 0)
  }

  ghost predicate InvocationStateValid(i: Invocation, settled: bool) {
    match i.state
    case Reserved | Intent | Rejected | Uncertain => i.responseID == "" && i.alias == "" && !settled
    case Accepted => i.responseID != "" && !settled
    case Completed => i.responseID != ""
    case Finalized => settled
  }

  ghost predicate InvocationValid(i: Invocation, q: nat, k: PromptKey, settled: bool, s: Session) {
    && i.sequence == q && q > 0
    && i.operationID in s.operations
    && InvocationStateValid(i, settled)
    && if i.responseID == "" then i.alias == ""
       else i.alias != "" && i.alias in s.responses && LinkValid(s.responses[i.alias], k, i)
  }

  ghost predicate LastSequenceValid(p: Prompt) {
    if p.invocations == map[] then p.lastSequence == 0
    else p.lastSequence in p.invocations && forall q :: q in p.invocations ==> q <= p.lastSequence
  }

  ghost predicate LatestCompleted(p: Prompt, q: nat) {
    && q in p.invocations && p.invocations[q].state.Completed?
    && forall r :: r in p.invocations && p.invocations[r].state.Completed? ==> r <= q
  }

  ghost predicate LastAliasValid(p: Prompt) {
    if forall q :: q in p.invocations ==> !p.invocations[q].state.Completed? then p.lastAlias == ""
    else exists q :: LatestCompleted(p, q) && p.lastAlias == p.invocations[q].alias
  }

  ghost predicate PromptIdentityValid(p: Prompt, k: PromptKey, s: Session) {
    && p.identity.prompt == k && p.identity.owner == s.owner
    && k.taskAttempt > 0
    && p.identity.operationID in s.operations
    && 0 < p.identity.leaseGeneration <= p.leaseGeneration <= MAX_UINT64
    && p.identity.leaseExpires <= p.leaseExpires
  }

  ghost predicate PromptClosureValid(p: Prompt, k: PromptKey, s: Session) {
    && (if p.settled then p.closing && p.proof.Some?
        else p.proof.None? && !s.retired && s.current == Some(k))
    && (s.retiring ==> p.closing)
  }

  ghost predicate PromptValid(p: Prompt, k: PromptKey, s: Session) {
    && PromptIdentityValid(p, k, s)
    && PromptClosureValid(p, k, s)
    && (forall q :: q in p.invocations ==> InvocationValid(p.invocations[q], q, k, p.settled, s))
    && LastSequenceValid(p)
    && LastAliasValid(p)
  }

  ghost predicate CreationValid(s: Session) {
    match s.createState
    case NotCreated => s.remoteID == "" && s.responses == map[]
    case CreateIntent | Known | Deleted => s.remoteID != ""
  }

  ghost predicate RetirementValid(s: Session) {
    if s.retired then s.retiring && (s.createState.NotCreated? || s.createState.Deleted?) && s.proof.Some?
    else !s.createState.Deleted? && s.proof.None?
  }

  /** Invocation `q` of prompt `k` is the one that produced response alias `a`. */
  ghost predicate Produced(s: Session, k: PromptKey, q: nat, a: string) {
    && k in s.prompts && q in s.prompts[k].invocations
    && s.prompts[k].invocations[q].responseID != ""
    && s.prompts[k].invocations[q].alias == a
  }

  ghost predicate LinksExact(s: Session) {
    && (forall a :: a in s.responses ==> exists q :: Produced(s, s.responses[a].prompt, q, a))
    && (forall a, k, q, r :: Produced(s, k, q, a) && Produced(s, k, r, a) ==> q == r)
  }

  ghost predicate SessionShapeValid(s: Session, o: Owner) {
    && s.owner == o
    && |s.prompts| <= MAX_PROMPTS && |s.operations| <= RETIREMENT_OPERATION_LIMIT
    && CreationValid(s) && RetirementValid(s)
    && (s.prompts == map[] <==> s.current.None?)
    && (s.current.Some? ==> s.current.value in s.prompts)
  }

  /** The structure of one owner's record. */
  ghost predicate SessionValid(s: Session, o: Owner) {
    && SessionShapeValid(s, o)
    && (forall k :: k in s.prompts ==> PromptValid(s.prompts[k], k, s))
    && LinksExact(s)
  }

  ghost predicate PromptTexts(p: Prompt, k: PromptKey) {
    && SafeString(k.taskUID, MAX_FIELD_BYTES) && SafeString(k.promptID, MAX_FIELD_BYTES)
    && DigestValid(k.requestDigest) && DigestValid(p.identity.bodyDigest)
    && forall q :: q in p.invocations ==> DigestValid(p.invocations[q].bodyDigest)
  }

  ghost predicate LinkTexts(alias: string, link: Link) {
    && AliasValid(alias, RESPONSE_PREFIX) && IdentifierValid(link.remoteID)
    && forall c :: c in link.callIDs ==> AliasValid(c, CALL_PREFIX)
  }

  /** The texts in one owner's record. */
  ghost predicate SessionTexts(s: Session) {
    && OwnerValid(s.owner)
    && (s.remoteID != "" ==> UuidValid(s.remoteID))
    && (forall id :: id in s.operations ==> SafeString(id, MAX_FIELD_BYTES))
    && (forall k :: k in s.prompts ==> PromptTexts(s.prompts[k], k))
    && (forall a :: a in s.responses ==> LinkTexts(a, s.responses[a]))
  }

  ghost predicate LinkClean(link: Link) {
    forall c :: c in link.callIDs ==> IdentifierValid(link.callIDs[c])
  }

  /** The two restart checks that admission does not make for every request. */
  ghost predicate SessionClean(s: Session) {
    && (forall a :: a in s.responses ==> LinkClean(s.responses[a]))
    && (forall k :: k in s.prompts ==> s.prompts[k].leaseExpires != ZERO_TIME)
  }

  ghost predicate SessionAccepted(s: Session, o: Owner) {
    SessionValid(s, o) && SessionTexts(s) && SessionClean(s)
  }

  ghost predicate LedgerValid(l: Ledger, configDigest: string) {
    && l.configDigest == configDigest
    && |l.sessions| <= MAX_OWNERS
    && (l.principal != "" ==> DigestValid(l.principal))
    && forall o :: o in l.sessions ==>
                     && SessionAccepted(l.sessions[o], o)
                     && (l.sessions[o].remoteID != "" ==> l.principal != "")
  }
}
