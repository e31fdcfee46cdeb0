/** Sums over maps. */
module Sums {

  ghost function Total<K, V>(m: map<K, V>, f: (K, V) -> nat): nat
    decreases |m|
  {
    if m == map[] then 0 else var k :| k in m; f(k, m[k]) + Total(m - {k}, f)
  }

  lemma {:induction false} TotalWithout<K, V>(m: map<K, V>, k: K, f: (K, V) -> nat)
    requires k in m
    ensures Total(m, f) == f(k, m[k]) + Total(m - {k}, f)
    decreases |m|
  {
    var j :| j in m && Total(m, f) == f(j, m[j]) + Total(m - {j}, f);
    if j != k {
      TotalWithout(m - {j}, k, f);
      TotalWithout(m - {k}, j, f);
      assert m - {j} - {k} == m - {k} - {j};
    }
  }

  lemma TotalPut<K, V>(m: map<K, V>, k: K, v: V, f: (K, V) -> nat)
    ensures Total(m[k := v], f) == f(k, v) + Total(m - {k}, f)
    ensures k in m ==> Total(m[k := v], f) + f(k, m[k]) == Total(m, f) + f(k, v)
    ensures k !in m ==> Total(m[k := v], f) == Total(m, f) + f(k, v)
  {
    TotalWithout(m[k := v], k, f);
    assert m[k := v] - {k} == m - {k};
    if k in m { TotalWithout(m, k, f); } else { assert m - {k} == m; }
  }

  lemma {:induction false} TotalCompare<K, V>(m: map<K, V>, n: map<K, V>, f: (K, V) -> nat, g: (K, V) -> nat)
    requires m.Keys == n.Keys && forall k :: k in m ==> f(k, m[k]) <= g(k, n[k])
    ensures Total(m, f) <= Total(n, g)
    decreases |m|
  {
    if m != map[] {
      var k :| k in m;
      TotalWithout(m, k, f);
      TotalWithout(n, k, g);
      TotalCompare(m - {k}, n - {k}, f, g);
    } else {
      assert n == map[];
    }
  }

  /** Sums that differ at one key only. */
  lemma TotalExtra<K, V>(m: map<K, V>, f: (K, V) -> nat, g: (K, V) -> nat, k: K, extra: nat)
    requires forall j :: j in m && j != k ==> f(j, m[j]) <= g(j, m[j])
    requires k in m ==> f(k, m[k]) <= g(k, m[k]) + extra
    ensures Total(m, f) <= Total(m, g) + extra
  {
    if k in m {
      TotalWithout(m, k, f);
      TotalWithout(m, k, g);
      TotalCompare(m - {k}, m - {k}, f, g);
    } else {
      TotalCompare(m, m, f, g);
    }
  }

  /** Sums that differ by at most `extra` at each key of a set. */
  lemma {:induction false} TotalEach<K, V>(m: map<K, V>, f: (K, V) -> nat, g: (K, V) -> nat, some: set<K>, extra: nat)
    requires some <= m.Keys
    requires forall k :: k in m ==> f(k, m[k]) <= g(k, m[k]) + (if k in some then extra else 0)
    ensures Total(m, f) <= Total(m, g) + extra * |some|
    decreases |m|
  {
    if m != map[] {
      var k :| k in m;
      TotalWithout(m, k, f);
      TotalWithout(m, k, g);
      var n, rest := m - {k}, some - {k};
      forall j | j in n ensures f(j, n[j]) <= g(j, n[j]) + (if j in rest then extra else 0) {
        assert j in m && n[j] == m[j];
      }
      TotalEach(n, f, g, rest, extra);
      if k in some {
        assert |some| == |rest| + 1;
        Distribute(extra, |rest|);
      } else {
        assert rest == some;
      }
    }
  }

  lemma Distribute(extra: nat, n: nat)
    ensures extra * (n + 1) == extra * n + extra
  {
  }
}

/** The length of the ledger's JSON form, and what the reserved changes can still add to it. */
module BrokerBytes {
  import opened Wrappers
  import opened Text
  import opened Sums
  import opened BrokerLedger

  // ---------------------------------------------------------------------------
  // JSON texts
  // ---------------------------------------------------------------------------

  /** Bytes of one character inside a JSON string, with the encoder's HTML-safe escapes. */
  function EscapedChar(c: char): nat {
    if c in {'"', '\\', '\n', '\r', '\t'} then 2
    else if c in {'<', '>', '&'} || c as int < 0x20 || c as int == 0x2028 || c as int == 0x2029 then 6
    else CharBytes(c)
  }

  function Escaped(s: string): nat {
    if s == [] then 0 else EscapedChar(s[0]) + Escaped(s[1..])
  }

  function Quoted(s: string): nat {
    Escaped(s) + 2
  }

  /** Escaping makes a text at most six times as long. */
  lemma {:induction false} EscapedBound(s: string)
    ensures Escaped(s) <= 6 * ByteLength(s)
  {
    if s != [] { EscapedBound(s[1..]); }
  }

  predicate Plain(c: char) {
    '0' <= c <= '9' || 'a' <= c <= 'z' || c == '-' || c == '_'
  }

  lemma {:induction false} PlainBytes(s: string)
    requires forall i :: 0 <= i < |s| ==> Plain(s[i])
    ensures Escaped(s) == |s|
  {
    if s != [] { PlainBytes(s[1..]); }
  }

  lemma UuidBytes(s: string)
    requires UuidValid(s)
    ensures Quoted(s) == 38
  {
    PlainBytes(s);
  }

  lemma AliasBytes(s: string)
    requires AliasValid(s, RESPONSE_PREFIX)
    ensures Quoted(s) == 41
  {
    forall i | 0 <= i < |s| ensures Plain(s[i]) {
      if i >= 3 { assert s[i] == s[3..][i - 3]; }
    }
    PlainBytes(s);
  }

  function Digits(n: nat): nat {
    if n < 10 then 1 else 1 + Digits(n / 10)
  }

  function Bool(b: bool): nat {
    if b then 4 else 5
  }

  // A digest in quotes.
  const DIGEST_BYTES: nat := 73

  function Field(present: bool, bytes: nat): nat {
    if present then bytes else 0
  }

  /** Braces, commas and members of an object with `count` members. */
  function Members(count: nat, bytes: nat): nat {
    2 + bytes + (if count == 0 then 0 else count - 1)
  }

  // The lengths of the parts of a record that no reserved change touches.
  datatype Encoding = Encoding(owner: Owner -> nat, context: Context -> nat, time: int -> nat)

  // ---------------------------------------------------------------------------
  // Records
  // ---------------------------------------------------------------------------

  function StateBytes(state: InvocationState): nat {
    match state
    case Intent => 6
    case Finalized => 7
    case Reserved | Accepted | Rejected => 8
    case Completed | Uncertain => 9
  }

  function CreateBytes(state: CreateState): nat {
    match state
    case NotCreated => 4
    case Known => 5
    case CreateIntent => 6
    case Deleted => 7
  }

  function InvocationBytes(q: nat, i: Invocation): nat {
    (Digits(q) + 3) + 12 + Digits(i.sequence) + 15 + Quoted(i.operationID) + 14 + DIGEST_BYTES + 9 + StateBytes(i.state) + 2
    + Field(i.responseID != "", 14 + Quoted(i.responseID)) + Field(i.alias != "", 17 + Quoted(i.alias)) + 1
  }

  /** The longest state name a reserved change can still lead to, beyond the present one. */
  function StateOwed(state: InvocationState): nat {
    match state
    case Reserved => 1
    case Intent => 3
    case _ => 0
  }

  function InvocationWeight(q: nat, i: Invocation): nat {
    InvocationBytes(q, i) + StateOwed(i.state)
  }

  const PROOF_BYTES: nat := 15 + DIGEST_BYTES

  function PromptShell(e: Encoding, p: Prompt): nat {
    (DIGEST_BYTES + 1) + 12 + e.context(p.identity) + 19 + Digits(p.leaseGeneration) + 18 + e.time(p.leaseExpires)
    + 11 + Bool(p.closing) + 11 + Bool(p.settled) + Field(p.proof.Some?, PROOF_BYTES) + 16 + Digits(p.lastSequence)
    + Field(p.lastAlias != "", 13 + Quoted(p.lastAlias)) + 15 + 1
  }

  ghost function PromptBytes(e: Encoding, p: Prompt): nat {
    PromptShell(e, p) + Members(|p.invocations|, Total(p.invocations, InvocationBytes))
  }

  ghost function PromptWeight(e: Encoding, p: Prompt): nat {
    PromptShell(e, p) + Field(!p.settled, PROOF_BYTES) + Members(|p.invocations|, Total(p.invocations, InvocationWeight))
  }

  function CallBytes(c: string, v: string): nat {
    Quoted(c) + 1 + Quoted(v)
  }

  ghost function LinkBytes(a: string, link: Link): nat {
    (Quoted(a) + 1) + 12 + Quoted(link.remoteID) + 13 + DIGEST_BYTES + 13 + Bool(link.completed) + 16 + Bool(link.hasFunctions)
    + Field(link.callIDs != map[], 11 + Members(|link.callIDs|, Total(link.callIDs, CallBytes))) + 1
  }

  function OperationBytes(id: string, digest: OpDigest): nat {
    Quoted(id) + 1 + DIGEST_BYTES
  }

  function SessionShell(e: Encoding, s: Session): nat {
    (DIGEST_BYTES + 1) + 9 + e.owner(s.owner) + Field(s.remoteID != "", 12 + Quoted(s.remoteID)) + 15 + CreateBytes(s.createState) + 2
    + 12 + Bool(s.retiring) + 11 + Bool(s.retired) + Field(s.proof.Some?, PROOF_BYTES)
    + Field(s.current.Some?, 17 + DIGEST_BYTES) + 11 + 13 + 14 + 1
  }

  function CreateOwed(state: CreateState): nat {
    match state
    case NotCreated => 53
    case CreateIntent => 1
    case Known => 2
    case Deleted => 0
  }

  function SessionOwed(s: Session): nat {
    if s.retired then 0 else PROOF_BYTES + CreateOwed(s.createState)
  }

  ghost function PromptBytesOf(e: Encoding): (PromptKey, Prompt) -> nat {
    (k, p) => PromptBytes(e, p)
  }

  ghost function PromptWeightOf(e: Encoding): (PromptKey, Prompt) -> nat {
    (k, p) => PromptWeight(e, p)
  }

  ghost function SessionRest(s: Session): nat {
    Members(|s.responses|, Total(s.responses, LinkBytes)) + Members(|s.operations|, Total(s.operations, OperationBytes))
  }

  ghost function SessionBytes(e: Encoding, s: Session): nat {
    SessionShell(e, s) + SessionRest(s) + Members(|s.prompts|, Total(s.prompts, PromptBytesOf(e)))
  }

  ghost function SessionWeight(e: Encoding, s: Session): nat {
    SessionShell(e, s) + SessionOwed(s) + SessionRest(s) + Members(|s.prompts|, Total(s.prompts, PromptWeightOf(e)))
  }

  ghost function SessionBytesOf(e: Encoding): (Owner, Session) -> nat {
    (o, s) => SessionBytes(e, s)
  }

  ghost function SessionWeightOf(e: Encoding): (Owner, Session) -> nat {
    (o, s) => SessionWeight(e, s)
  }

  const PRINCIPAL_BYTES: nat := 19 + DIGEST_BYTES

  function LedgerShell(l: Ledger): nat {
    12 + 16 + DIGEST_BYTES + Field(l.principal != "", PRINCIPAL_BYTES) + 12 + 1
  }

  /** The length of the whole ledger. */
  ghost function LedgerBytes(e: Encoding, l: Ledger): nat {
    LedgerShell(l) + Members(|l.sessions|, Total(l.sessions, SessionBytesOf(e)))
  }

  /** The length, and all that reserved changes other than acceptances and new keys can add. */
  ghost function LedgerWeight(e: Encoding, l: Ledger): nat {
    LedgerShell(l) + Field(l.principal == "", PRINCIPAL_BYTES) + Members(|l.sessions|, Total(l.sessions, SessionWeightOf(e)))
  }

  ghost function SizeOf(e: Encoding): Ledger -> nat {
    l => LedgerBytes(e, l)
  }

  // ---------------------------------------------------------------------------
  // Length and weight
  // ---------------------------------------------------------------------------

  lemma PromptLighter(e: Encoding, p: Prompt)
    ensures PromptBytes(e, p) <= PromptWeight(e, p)
  {
    TotalCompare(p.invocations, p.invocations, InvocationBytes, InvocationWeight);
  }

  lemma SessionLighter(e: Encoding, s: Session)
    ensures SessionBytes(e, s) <= SessionWeight(e, s)
  {
    forall k | k in s.prompts ensures PromptBytesOf(e)(k, s.prompts[k]) <= PromptWeightOf(e)(k, s.prompts[k]) {
      PromptLighter(e, s.prompts[k]);
    }
    TotalCompare(s.prompts, s.prompts, PromptBytesOf(e), PromptWeightOf(e));
  }

  lemma LedgerLighter(e: Encoding, l: Ledger)
    ensures LedgerBytes(e, l) <= LedgerWeight(e, l)
  {
    forall o | o in l.sessions ensures SessionBytesOf(e)(o, l.sessions[o]) <= SessionWeightOf(e)(o, l.sessions[o]) {
      SessionLighter(e, l.sessions[o]);
    }
    TotalCompare(l.sessions, l.sessions, SessionBytesOf(e), SessionWeightOf(e));
  }

  predicate Done(i: Invocation) {
    i.state.Completed? || i.state.Finalized?
  }

  /** All invocations of a prompt but its latest are done. */
  ghost predicate OlderDone(p: Prompt) {
    forall q :: q in p.invocations && q != p.lastSequence ==> Done(p.invocations[q])
  }

  lemma PromptHeavier(e: Encoding, p: Prompt)
    requires OlderDone(p)
    ensures PromptWeight(e, p) <= PromptBytes(e, p) + 3 + Field(!p.settled, PROOF_BYTES)
  {
    TotalExtra(p.invocations, InvocationWeight, InvocationBytes, p.lastSequence, 3);
  }

  lemma SettledHeavier(e: Encoding, p: Prompt)
    requires p.settled && forall q :: q in p.invocations ==> Done(p.invocations[q])
    ensures PromptWeight(e, p) <= PromptBytes(e, p)
  {
    TotalCompare(p.invocations, p.invocations, InvocationWeight, InvocationBytes);
  }
}
