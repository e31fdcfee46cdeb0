/**
 What each commit of the broker does to one owner's record. A change either yields the
 next record or an error, in which case nothing is committed.
 */
module BrokerChanges {
  import opened Wrappers
  import opened Text
  import opened BrokerLedger

  const LEASE_BOUND: int := 300_000_000_000
  const MAX_RESULT_BYTES: nat := 4194304

  /** What the request parser has established before a change is asked for. */
  ghost predicate ParsedContext(path: Path, c: Context, at: int) {
    && OwnerValid(c.owner)
    && SafeString(c.operationID, MAX_FIELD_BYTES) && DigestValid(c.bodyDigest)
    && (path.Responses? <==> c.sequence > 0)
    && if path.Retire? then
         c.prompt == PromptKey("", 0, "", "") && c.leaseGeneration == 0
       else
         && SafeString(c.prompt.taskUID, MAX_FIELD_BYTES) && c.prompt.taskAttempt > 0
         && SafeString(c.prompt.promptID, MAX_FIELD_BYTES) && DigestValid(c.prompt.requestDigest)
         && 0 < c.leaseGeneration <= MAX_UINT64
         && (path.Responses? || path.Renew? ==> at < c.leaseExpires <= at + LEASE_BOUND)
  }

  function EnsureSession(l: Ledger, o: Owner): Result<Session, Error> {
    if o in l.sessions then Ok(l.sessions[o])
    else if |l.sessions| >= MAX_OWNERS then Err(Storage)
    else Ok(EmptySession(o))
  }

  function PutSession(l: Ledger, o: Owner, s: Session): Ledger {
    l.(sessions := l.sessions[o := s])
  }

  function PutPrompt(s: Session, k: PromptKey, p: Prompt): Session {
    s.(prompts := s.prompts[k := p])
  }

  function PutInvocation(s: Session, k: PromptKey, q: nat, i: Invocation): Session
    requires k in s.prompts
  {
    PutPrompt(s, k, WithInvocation(s.prompts[k], q, i))
  }

  function PutState(s: Session, k: PromptKey, q: nat, state: InvocationState): Session
    requires k in s.prompts && q in s.prompts[k].invocations
  {
    PutInvocation(s, k, q, s.prompts[k].invocations[q].(state := state))
  }

  function OperationLimit(path: Path): nat {
    match path
    case Settle => SETTLEMENT_OPERATION_LIMIT
    case Retire => RETIREMENT_OPERATION_LIMIT
    case _ => OPERATION_LIMIT
  }

  /** The record with the operation in it, and whether it was there already. */
  function RecordOperation(s: Session, path: Path, c: Context): Result<(Session, bool), Error> {
    var digest := OpDigest(path, c);
    if c.operationID in s.operations then
      if s.operations[c.operationID] != digest then Err(Conflict) else Ok((s, true))
    else if |s.operations| >= OperationLimit(path) then Err(Storage)
    else Ok((s.(operations := s.operations[c.operationID := digest]), false))
  }

  predicate IdentityClash(k: PromptKey, c: Context) {
    k.promptID == c.prompt.promptID || (k.taskUID == c.prompt.taskUID && k.taskAttempt == c.prompt.taskAttempt)
  }

  function NewPrompt(c: Context): Prompt {
    Prompt(c, c.leaseGeneration, c.leaseExpires, false, false, None, 0, "", map[])
  }

  function AddPrompt(s: Session, c: Context): Session {
    s.(prompts := s.prompts[c.prompt := NewPrompt(c)], current := Some(c.prompt))
  }

  function EnsurePrompt(s: Session, c: Context): (r: Result<Session, Error>)
    ensures r.Ok? ==> c.prompt in r.value.prompts
  {
    if c.prompt in s.prompts then Ok(s)
    else if s.retiring || s.retired then Err(Closed)
    else if exists k :: k in s.prompts && IdentityClash(k, c) then Err(Conflict)
    else if s.current.Some? && s.current.value in s.prompts && !s.prompts[s.current.value].settled then Err(Conflict)
    else if |s.prompts| >= MAX_PROMPTS then Err(Storage)
    else Ok(AddPrompt(s, c))
  }

  function CloseAll(prompts: map<PromptKey, Prompt>): map<PromptKey, Prompt> {
    map k | k in prompts :: prompts[k].(closing := true)
  }

  function ClosePrompt(s: Session, k: PromptKey): Session {
    if k in s.prompts then PutPrompt(s, k, s.prompts[k].(closing := true)) else s
  }

  // ---------------------------------------------------------------------------
  // Lifecycle controls
  // ---------------------------------------------------------------------------

  function RetireChange(s: Session, c: Context): Result<Session, Error> {
    var (s1, _) :- RecordOperation(s, Retire, c);
    Ok(s1.(retiring := true, prompts := CloseAll(s1.prompts)))
  }

  function SettleChange(s: Session, c: Context): Result<Session, Error> {
    var (s1, _) :- RecordOperation(s, Settle, c);
    var s2 :- EnsurePrompt(s1, c);
    Ok(ClosePrompt(s2, c.prompt))
  }

  /** The lease after a renewal of an open prompt; the generation is a 64-bit counter. */
  function RenewLease(p: Prompt, c: Context, now: int): Result<Prompt, Error> {
    if p.closing || p.settled then Err(Closed)
    else if p.identity.operationID == c.operationID && p.lastSequence == 0
            && p.leaseGeneration == c.leaseGeneration then Ok(p)
    else if c.leaseGeneration != (p.leaseGeneration + 1) % (MAX_UINT64 + 1)
            || p.leaseExpires <= now || c.leaseExpires < p.leaseExpires then Err(Conflict)
    else Ok(p.(leaseGeneration := c.leaseGeneration, leaseExpires := c.leaseExpires))
  }

  function RenewChange(s: Session, c: Context, now: int): Result<Session, Error> {
    var (s1, duplicate) :- RecordOperation(s, Renew, c);
    if s1.retiring || s1.retired then Err(Closed)
    else
      var s2 :- EnsurePrompt(s1, c);
      if duplicate then Ok(s2)
      else
        var p :- RenewLease(s2.prompts[c.prompt], c, now);
        Ok(PutPrompt(s2, c.prompt, p))
  }

  function ControlChange(s: Session, path: Path, c: Context, now: int): Result<Session, Error> {
    match path
    case Retire => RetireChange(s, c)
    case Settle => SettleChange(s, c)
    case _ => RenewChange(s, c, now)
  }

  // ---------------------------------------------------------------------------
  // Admission of one inference, and translation of the response it continues
  // ---------------------------------------------------------------------------

  datatype Json = JText(text: string) | JOther

  datatype Input = Text(text: string) | Items(items: seq<Item>) | OtherInput

  // One element of a list input: an object's members, or something that is not an object.
  datatype Item = Object(members: map<string, Json>) | NotObject

  datatype Request = Request(input: Input, previous: string)

  function TextMember(item: Item, name: string): Option<string> {
    if item.Object? && name in item.members && item.members[name].JText? then Some(item.members[name].text) else None
  }

  /** A tool result that names one of the calls `callIDs` and carries nothing else. */
  predicate ResultItem(item: Item, callIDs: map<string, string>) {
    && TextMember(item, "type") == Some("function_call_output")
    && TextMember(item, "call_id").Some? && TextMember(item, "call_id").value in callIDs
    && TextMember(item, "output").Some? && ByteLength(TextMember(item, "output").value) <= MAX_RESULT_BYTES
    && |item.members| == 3
  }

  function CallID(item: Item): string {
    match TextMember(item, "call_id")
    case Some(id) => id
    case None => ""
  }

  function TranslateItem(item: Item, callIDs: map<string, string>): Item
    requires ResultItem(item, callIDs)
  {
    item.(members := item.members["call_id" := JText(callIDs[CallID(item)])])
  }

  predicate DistinctCalls(items: seq<Item>) {
    forall i, j :: 0 <= i < j < |items| ==> CallID(items[i]) != CallID(items[j])
  }

  predicate ResultsAccepted(items: seq<Item>, callIDs: map<string, string>) {
    && |items| == |callIDs|
    && (forall i :: 0 <= i < |items| ==> ResultItem(items[i], callIDs))
    && DistinctCalls(items)
  }

  function TranslateItems(items: seq<Item>, callIDs: map<string, string>): (r: seq<Item>)
    requires forall i :: 0 <= i < |items| ==> ResultItem(items[i], callIDs)
    ensures |r| == |items|
    ensures forall i :: 0 <= i < |items| ==> r[i] == TranslateItem(items[i], callIDs)
  {
    if items == [] then [] else [TranslateItem(items[0], callIDs)] + TranslateItems(items[1..], callIDs)
  }

  /** The request with provider identities in place of aliases. */
  function TranslatePrevious(s: Session, k: PromptKey, first: bool, r: Request): Result<Request, Error> {
    var known := r.previous in s.responses;
    if r.previous != "" && (!known || !s.responses[r.previous].completed
                            || (first && s.responses[r.previous].hasFunctions)) then Err(Conflict)
    else if !first && (!known || s.responses[r.previous].prompt != k) then Err(Conflict)
    else if first then
      if !r.input.Text? then Err(Invalid)
      else Ok(if known then r.(previous := s.responses[r.previous].remoteID) else r)
    else
      var link := s.responses[r.previous];
      if !r.input.Items? || !link.hasFunctions || !ResultsAccepted(r.input.items, link.callIDs) then Err(Conflict)
      else Ok(Request(Items(TranslateItems(r.input.items, link.callIDs)), link.remoteID))
  }

  /** The record with the invocation reserved, and the request to send. */
  function ReserveChange(s: Session, c: Context, r: Request, outputsNormal: bool, now: int)
    : Result<(Session, Request), Error>
  {
    if s.retiring || s.retired then Err(Closed)
    else
      var (s1, duplicate) :- RecordOperation(s, Responses, c);
      if duplicate then Err(Conflict)
      else
        var s2 :- EnsurePrompt(s1, c);
        var p := s2.prompts[c.prompt];
        if p.closing || p.settled || p.leaseExpires <= now then Err(Closed)
        else if c.leaseGeneration != p.leaseGeneration || c.leaseExpires != p.leaseExpires
                || c.sequence <= p.lastSequence then Err(Conflict)
        else if p.lastSequence != 0 && r.previous != p.lastAlias then Err(Conflict)
        else
          var sent :- TranslatePrevious(s2, c.prompt, p.lastSequence == 0, r);
          if !outputsNormal then Err(Invalid)
          else
            var i := Invocation(c.sequence, c.operationID, c.bodyDigest, Reserved, "", "");
            Ok((PutPrompt(s2, c.prompt, p.(lastSequence := c.sequence,
                                           invocations := p.invocations[c.sequence := i])), sent))
  }

  // ---------------------------------------------------------------------------
  // One admitted inference, from remote session creation to its end
  // ---------------------------------------------------------------------------

  predicate HasInvocation(s: Session, k: PromptKey, q: nat) {
    k in s.prompts && q in s.prompts[k].invocations
  }

  function CreateIntentChange(s: Session, k: PromptKey, remote: string, cancelled: bool, now: int): Result<Session, Error>
    requires k in s.prompts
  {
    if s.retiring || s.prompts[k].closing || cancelled || s.prompts[k].leaseExpires <= now then Err(Closed)
    else Ok(s.(remoteID := remote, createState := CreateIntent))
  }

  function CreateResultChange(s: Session, created: bool): Session {
    if created then s.(createState := Known) else s.(remoteID := "", createState := NotCreated)
  }

  function InferIntentChange(s: Session, k: PromptKey, q: nat, cancelled: bool, now: int): Result<Session, Error>
    requires HasInvocation(s, k, q)
  {
    if s.retiring || s.prompts[k].closing || cancelled || s.prompts[k].leaseExpires <= now then Err(Closed)
    else Ok(PutState(s, k, q, Intent))
  }

  function RefusalChange(s: Session, k: PromptKey, q: nat): Session
    requires HasInvocation(s, k, q)
  {
    PutState(s, k, q, Rejected)
  }

  function WithInvocation(p: Prompt, q: nat, i: Invocation): Prompt {
    p.(invocations := p.invocations[q := i])
  }

  function AcceptedPrompt(p: Prompt, q: nat, id: string, alias: string): Prompt
    requires q in p.invocations
  {
    WithInvocation(p, q, p.invocations[q].(responseID := id, alias := alias, state := Accepted))
  }

  function AcceptedSession(s: Session, k: PromptKey, q: nat, id: string, alias: string): Session
    requires HasInvocation(s, k, q)
  {
    s.(prompts := s.prompts[k := AcceptedPrompt(s.prompts[k], q, id, alias)],
       responses := s.responses[alias := Link(id, k, false, false, map[])])
  }

  function IdentityChange(s: Session, k: PromptKey, q: nat, id: string, alias: string): Result<Session, Error>
    requires HasInvocation(s, k, q)
  {
    if exists a :: a in s.responses && s.responses[a].remoteID == id then Err(Conflict)
    else Ok(AcceptedSession(s, k, q, id, alias))
  }

  // A complete response as its decoder reports it; calls are the provider's call identifiers.
  datatype Summary = Summary(responseID: string, text: string, calls: seq<string>)

  predicate CallsAdmissible(calls: seq<string>) {
    && (forall i :: 0 <= i < |calls| ==> SafeString(calls[i], MAX_IDENTIFIER_BYTES))
    && (forall i, j :: 0 <= i < j < |calls| ==> calls[i] != calls[j])
  }

  /** The call map of a completion: the i-th fresh alias stands for the i-th call. */
  function CallMap(calls: seq<string>, aliases: seq<string>): map<string, string>
    requires |calls| == |aliases|
  {
    if calls == [] then map[]
    else CallMap(calls[..|calls| - 1], aliases[..|calls| - 1])[aliases[|calls| - 1] := calls[|calls| - 1]]
  }

  function CompletedPrompt(p: Prompt, q: nat): Prompt
    requires q in p.invocations
  {
    WithInvocation(p, q, p.invocations[q].(state := Completed)).(lastAlias := p.invocations[q].alias)
  }

  function CompletedSession(s: Session, k: PromptKey, q: nat, link: Link): Session
    requires HasInvocation(s, k, q)
  {
    s.(prompts := s.prompts[k := CompletedPrompt(s.prompts[k], q)],
       responses := s.responses[s.prompts[k].invocations[q].alias := link])
  }

  function CompleteChange(s: Session, k: PromptKey, q: nat, r: Summary, aliases: seq<string>, now: int)
    : Result<Session, Error>
    requires HasInvocation(s, k, q) && |aliases| == |r.calls|
  {
    var p, i := s.prompts[k], s.prompts[k].invocations[q];
    if i.responseID != r.responseID || i.alias == "" || i.alias !in s.responses then Err(Conflict)
    else if p.closing || p.leaseExpires <= now then Err(Closed)
    else if !CallsAdmissible(r.calls) then Err(Conflict)
    else
      var calls := CallMap(r.calls, aliases);
      var link := s.responses[i.alias].(completed := true, hasFunctions := |calls| != 0, callIDs := calls);
      Ok(CompletedSession(s, k, q, link))
  }

  // How an invocation ended: with a durable completion, with acceptance unknown, or otherwise.
  datatype Outcome = Success | AcceptanceUnknown | Failed

  function FinalState(state: InvocationState, outcome: Outcome): InvocationState {
    match state
    case Reserved => Rejected
    case Intent => if outcome.AcceptanceUnknown? then Uncertain else Rejected
    case _ => state
  }

  function FinishChange(s: Session, k: PromptKey, q: nat, outcome: Outcome): Session
    requires HasInvocation(s, k, q)
  {
    if outcome.Success? then s
    else ClosePrompt(PutState(s, k, q, FinalState(s.prompts[k].invocations[q].state, outcome)), k)
  }

  // ---------------------------------------------------------------------------
  // Expiry, restart and cleanup
  // ---------------------------------------------------------------------------

  function ExpirePrompts(s: Session, now: int): Session {
    s.(prompts := map k | k in s.prompts ::
         if s.prompts[k].leaseExpires <= now then s.prompts[k].(closing := true) else s.prompts[k])
  }

  function RecoverPrompts(s: Session): Session {
    s.(prompts := map k | k in s.prompts ::
         if s.prompts[k].settled then s.prompts[k] else s.prompts[k].(closing := true))
  }

  function ForSessions(l: Ledger, f: Session -> Session): Ledger {
    l.(sessions := map o | o in l.sessions :: f(l.sessions[o]))
  }

  predicate AmbiguousInvocation(i: Invocation) {
    i.state.Uncertain? || (i.state.Intent? && i.responseID == "")
  }

  predicate QuietInvocation(i: Invocation) {
    i.state.Completed? || i.state.Reserved? || i.state.Rejected?
  }

  predicate SessionAmbiguous(s: Session) {
    exists k :: k in s.prompts && exists q :: q in s.prompts[k].invocations && AmbiguousInvocation(s.prompts[k].invocations[q])
  }

  function ClosingPrompts(s: Session): set<PromptKey> {
    set k | k in s.prompts && s.prompts[k].closing && !s.prompts[k].settled
  }

  predicate ClosingQuiet(s: Session) {
    forall k :: k in ClosingPrompts(s) ==>
                  forall q :: q in s.prompts[k].invocations ==> QuietInvocation(s.prompts[k].invocations[q])
  }

  function SettleInvocations(invocations: map<nat, Invocation>): map<nat, Invocation> {
    map q | q in invocations ::
      if invocations[q].state.Completed? then invocations[q] else invocations[q].(state := Finalized)
  }

  function SettlePrompt(p: Prompt, proof: Proof): Prompt {
    p.(settled := true, proof := Some(proof), invocations := SettleInvocations(p.invocations))
  }

  function SettlePrompts(s: Session, closing: set<PromptKey>, kind: Kind, remote: string, at: int): Session {
    s.(prompts := map k | k in s.prompts ::
         if k in closing then SettlePrompt(s.prompts[k], Proof(s.owner, Some(k), remote, kind, at)) else s.prompts[k])
  }

  /** The cleanup commit: settle the captured prompts and, if asked to, retire the owner. */
  function CleanupChange(s: Session, closing: set<PromptKey>, retiring: bool, created: bool,
                         kind: Kind, remote: string, at: int): Result<Session, Error>
  {
    var s1 := SettlePrompts(s, closing, kind, remote, at);
    if !retiring then Ok(s1)
    else if exists k :: k in s1.prompts && !s1.prompts[k].settled then Err(Pending)
    else
      Ok(s1.(createState := if created then Deleted else s1.createState,
             retired := true, proof := Some(Proof(s.owner, None, remote, kind, at))))
  }
}
