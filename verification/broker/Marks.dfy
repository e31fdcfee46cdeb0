/**
 How short the encoded ledger can still get: a length that no reserved change lowers, never below
 the present length and never more than a few bytes per live owner above it.
 */
module BrokerMarks {
  import opened Wrappers
  import opened Sums
  import opened BrokerLedger
  import opened BrokerValidity
  import opened BrokerSystem
  import opened BrokerInvariant
  import opened BrokerSafety
  import opened BrokerEvents
  import opened BrokerReopening
  import opened BrokerBytes
  import opened BrokerCapacity

  // What the record of a live owner can still shrink by.
  const SLACK_BYTES: nat := 64

  // A time in the format of RFC 3339 with nanoseconds, in quotes.
  const TIME_BYTES: nat := 37

  /** The shortest name of a state an invocation can still get to. */
  function StateMark(state: InvocationState): (n: nat)
    ensures n <= StateBytes(state) <= n + 3
  {
    match state
    case Completed => 9
    case Finalized => 7
    case _ => 6
  }

  function InvocationMark(q: nat, i: Invocation): nat {
    InvocationBytes(q, i) - StateBytes(i.state) + StateMark(i.state)
  }

  ghost function PromptMark(e: Encoding, p: Prompt): nat {
    PromptShell(e, p.(closing := true, settled := true)) + Members(|p.invocations|, Total(p.invocations, InvocationMark))
  }

  ghost function PromptMarkOf(e: Encoding): (PromptKey, Prompt) -> nat {
    (k, p) => PromptMark(e, p)
  }

  predicate Created(s: Session) {
    s.createState.Known? || s.createState.Deleted?
  }

  /** A record without what its own cleanup could take away. */
  function Stripped(s: Session): Session {
    var t := s.(retiring := true, retired := true);
    if Created(s) then t else t.(createState := NotCreated, remoteID := "")
  }

  ghost function SessionMark(e: Encoding, s: Session): nat {
    SessionShell(e, Stripped(s)) + SessionRest(s) + Members(|s.prompts|, Total(s.prompts, PromptMarkOf(e)))
    + Field(!s.retired, SLACK_BYTES)
  }

  ghost function SessionMarkOf(e: Encoding): (Owner, Session) -> nat {
    (o, s) => SessionMark(e, s)
  }

  ghost function LedgerMark(e: Encoding, l: Ledger): nat {
    LedgerShell(l) + Members(|l.sessions|, Total(l.sessions, SessionMarkOf(e)))
  }

  // ---------------------------------------------------------------------------
  // Length and mark
  // ---------------------------------------------------------------------------

  lemma PromptBelow(e: Encoding, p: Prompt)
    requires OlderDone(p)
    ensures PromptBytes(e, p) <= PromptMark(e, p) + 5
  {
    TotalExtra(p.invocations, InvocationBytes, InvocationMark, p.lastSequence, 3);
  }

  lemma SettledBelow(e: Encoding, p: Prompt)
    requires p.settled && p.closing && forall q :: q in p.invocations ==> Done(p.invocations[q])
    ensures PromptBytes(e, p) <= PromptMark(e, p)
  {
    TotalCompare(p.invocations, p.invocations, InvocationBytes, InvocationMark);
  }

  lemma OneBelow(e: Encoding, m: Session, o: Owner, k: PromptKey)
    requires SessionValid(m, o) && TidyRecord(m) && k in m.prompts
    ensures PromptBytes(e, m.prompts[k]) <= PromptMark(e, m.prompts[k]) + (if m.current == Some(k) && !m.retired then 5 else 0)
  {
    assert PromptValid(m.prompts[k], k, m);
    if m.prompts[k].settled {
      forall q | q in m.prompts[k].invocations ensures Done(m.prompts[k].invocations[q]) {
        assert InvocationValid(m.prompts[k].invocations[q], q, k, true, m);
      }
      SettledBelow(e, m.prompts[k]);
    } else {
      PromptBelow(e, m.prompts[k]);
    }
  }

  lemma PromptsBelow(e: Encoding, m: Session, o: Owner)
    requires SessionValid(m, o) && TidyRecord(m)
    ensures Total(m.prompts, PromptBytesOf(e)) <= Total(m.prompts, PromptMarkOf(e)) + (if m.retired then 0 else 5)
  {
    hide PromptBytes, PromptMark, SessionValid;
    forall k | k in m.prompts
      ensures PromptBytesOf(e)(k, m.prompts[k])
              <= PromptMarkOf(e)(k, m.prompts[k]) + (if m.current == Some(k) && !m.retired then 5 else 0)
    {
      OneBelow(e, m, o, k);
    }
    if m.retired || m.current.None? {
      TotalCompare(m.prompts, m.prompts, PromptBytesOf(e), PromptMarkOf(e));
    } else {
      TotalExtra(m.prompts, PromptBytesOf(e), PromptMarkOf(e), m.current.value, 5);
    }
  }

  lemma ShellBelow(e: Encoding, m: Session, o: Owner)
    requires SessionValid(m, o) && SessionTexts(m)
    ensures SessionShell(e, m) <= SessionShell(e, Stripped(m)) + (if m.retired then 0 else 54)
  {
    if m.remoteID != "" { UuidBytes(m.remoteID); }
  }

  /** The mark of a record is not below its length. */
  lemma SessionBelow(e: Encoding, m: Session, o: Owner)
    requires SessionValid(m, o) && SessionTexts(m) && TidyRecord(m)
    ensures SessionBytes(e, m) <= SessionMark(e, m)
  {
    hide SessionShell, SessionRest, Stripped;
    ShellBelow(e, m, o);
    PromptsBelow(e, m, o);
  }

  lemma LedgerBelow(e: Encoding, l: Ledger)
    requires OwnersSound(l) && TextsLedger(l) && TidyLedger(l)
    ensures LedgerBytes(e, l) <= LedgerMark(e, l)
  {
    hide SessionBytes, SessionMark;
    forall o | o in l.sessions ensures SessionBytesOf(e)(o, l.sessions[o]) <= SessionMarkOf(e)(o, l.sessions[o]) {
      assert Record(l, o, l.sessions[o]);
      SessionBelow(e, l.sessions[o], o);
    }
    TotalCompare(l.sessions, l.sessions, SessionBytesOf(e), SessionMarkOf(e));
  }

  lemma PromptAbove(e: Encoding, p: Prompt)
    ensures PromptMark(e, p) <= PromptBytes(e, p)
  {
    TotalCompare(p.invocations, p.invocations, InvocationMark, InvocationBytes);
  }

  lemma SessionAbove(e: Encoding, m: Session)
    ensures SessionMark(e, m) <= SessionBytes(e, m) + Field(!m.retired, SLACK_BYTES)
  {
    hide PromptMark, PromptBytes, SessionRest;
    forall k | k in m.prompts ensures PromptMarkOf(e)(k, m.prompts[k]) <= PromptBytesOf(e)(k, m.prompts[k]) {
      PromptAbove(e, m.prompts[k]);
    }
    TotalCompare(m.prompts, m.prompts, PromptMarkOf(e), PromptBytesOf(e));
  }

  /** The mark is at most a few bytes per live owner above the length. */
  lemma LedgerAbove(e: Encoding, l: Ledger)
    ensures LedgerMark(e, l) <= LedgerBytes(e, l) + SLACK_BYTES * |LiveOwners(l)|
  {
    hide SessionBytes, SessionMark;
    forall o | o in l.sessions
      ensures SessionMarkOf(e)(o, l.sessions[o])
              <= SessionBytesOf(e)(o, l.sessions[o]) + (if o in LiveOwners(l) then SLACK_BYTES else 0)
    {
      SessionAbove(e, l.sessions[o]);
    }
    TotalEach(l.sessions, SessionMarkOf(e), SessionBytesOf(e), LiveOwners(l), SLACK_BYTES);
  }

  // ---------------------------------------------------------------------------
  // Moving forwards does not lower the mark
  // ---------------------------------------------------------------------------

  lemma {:induction false} DigitsGrow(a: nat, b: nat)
    requires a <= b
    ensures Digits(a) <= Digits(b)
    decreases b
  {
    if a >= 10 { DigitsGrow(a / 10, b / 10); }
  }

  /** Sums over maps that only gain keys, and whose parts shrink at one key only. */
  lemma {:induction false} TotalGrows<K, V>(m: map<K, V>, n: map<K, V>, f: (K, V) -> nat, k: K, extra: nat)
    requires m.Keys <= n.Keys
    requires forall j :: j in m ==> f(j, m[j]) <= f(j, n[j]) + (if j == k then extra else 0)
    ensures Total(m, f) <= Total(n, f) + (if k in m then extra else 0)
    ensures |m| <= |n|
    decreases |m|
  {
    if m != map[] {
      var j :| j in m;
      TotalWithout(m, j, f);
      TotalWithout(n, j, f);
      var m1, n1 := m - {j}, n - {j};
      forall i | i in m1 ensures f(i, m1[i]) <= f(i, n1[i]) + (if i == k then extra else 0) {
        assert i in m && m1[i] == m[i] && n1[i] == n[i];
      }
      TotalGrows(m1, n1, f, k, extra);
    }
  }

  lemma InvocationGrows(q: nat, i: Invocation, j: Invocation)
    requires InvocationAdvances(i, j) && (i.responseID == "" ==> i.alias == "")
    ensures InvocationMark(q, i) <= InvocationMark(q, j)
  {
  }

  lemma NoAnswerNoAlias(m: Session, o: Owner, k: PromptKey)
    requires SessionValid(m, o) && k in m.prompts
    ensures forall q :: q in m.prompts[k].invocations && m.prompts[k].invocations[q].responseID == ""
                        ==> m.prompts[k].invocations[q].alias == ""
    ensures !m.prompts[k].settled ==> m.prompts[k].proof.None?
  {
    assert PromptValid(m.prompts[k], k, m);
    forall q | q in m.prompts[k].invocations && m.prompts[k].invocations[q].responseID == ""
      ensures m.prompts[k].invocations[q].alias == ""
    {
      assert InvocationValid(m.prompts[k].invocations[q], q, k, m.prompts[k].settled, m);
    }
  }

  predicate SomeCompleted(p: Prompt) {
    exists q :: q in p.invocations && p.invocations[q].state.Completed?
  }

  /** The latest alias of a prompt is there once something is complete, and has one length. */
  lemma LastAliasBytes(m: Session, o: Owner, k: PromptKey)
    requires SessionValid(m, o) && SessionTexts(m) && k in m.prompts
    ensures m.prompts[k].lastAlias != "" <==> SomeCompleted(m.prompts[k])
    ensures m.prompts[k].lastAlias != "" ==> Quoted(m.prompts[k].lastAlias) == 41
  {
    hide SessionShapeValid, LinksExact, CreationValid, PromptClosureValid, PromptTexts, PromptIdentityValid, LastSequenceValid;
    var p := m.prompts[k];
    assert PromptValid(p, k, m);
    if SomeCompleted(p) {
      var q :| LatestCompleted(p, q) && p.lastAlias == p.invocations[q].alias;
      assert InvocationValid(p.invocations[q], q, k, p.settled, m);
      assert LinkTexts(p.lastAlias, m.responses[p.lastAlias]);
      AliasBytes(p.lastAlias);
    }
  }

  lemma CompletedKept(p: Prompt, p1: Prompt)
    requires PromptAdvances(p, p1) && SomeCompleted(p)
    ensures SomeCompleted(p1)
  {
    var q :| q in p.invocations && p.invocations[q].state.Completed?;
    assert InvocationAdvances(p.invocations[q], p1.invocations[q]);
    assert q in p1.invocations && p1.invocations[q].state.Completed?;
  }

  lemma PromptShellGrows(e: Encoding, p: Prompt, p1: Prompt, extra: nat)
    requires PromptAdvances(p, p1) && e.time(p.leaseExpires) <= e.time(p1.leaseExpires) + extra
    requires !p.settled ==> p.proof.None?
    requires Field(p.lastAlias != "", 13 + Quoted(p.lastAlias)) <= Field(p1.lastAlias != "", 13 + Quoted(p1.lastAlias))
    ensures PromptShell(e, p.(closing := true, settled := true)) <= PromptShell(e, p1.(closing := true, settled := true)) + extra
  {
    DigitsGrow(p.leaseGeneration, p1.leaseGeneration);
    DigitsGrow(p.lastSequence, p1.lastSequence);
  }

  lemma PromptGrows(e: Encoding, m: Session, n: Session, o: Owner, k: PromptKey, extra: nat)
    requires SessionValid(m, o) && SessionValid(n, o) && SessionTexts(m) && SessionTexts(n) && SessionAdvances(m, n)
    requires k in m.prompts && e.time(m.prompts[k].leaseExpires) <= e.time(n.prompts[k].leaseExpires) + extra
    ensures PromptMark(e, m.prompts[k]) <= PromptMark(e, n.prompts[k]) + extra
  {
    hide SessionValid, SessionTexts, InvocationMark, PromptShell, Quoted;
    var p, p1 := m.prompts[k], n.prompts[k];
    NoAnswerNoAlias(m, o, k);
    LastAliasBytes(m, o, k);
    LastAliasBytes(n, o, k);
    if SomeCompleted(p) { CompletedKept(p, p1); }
    PromptShellGrows(e, p, p1, extra);
    forall q | q in p.invocations ensures InvocationMark(q, p.invocations[q]) <= InvocationMark(q, p1.invocations[q]) {
      InvocationGrows(q, p.invocations[q], p1.invocations[q]);
    }
    TotalGrows(p.invocations, p1.invocations, InvocationMark, p.lastSequence, 0);
  }

  /** Sessions that exist remotely stay, and responses but one keep the form they are linked in. */
  ghost predicate KeepsParts(m: Session, n: Session, alias: Option<string>) {
    && (Created(m) ==> n.remoteID == m.remoteID && (n.createState == m.createState || n.createState.Deleted?))
    && (forall a :: a in m.responses ==> a in n.responses && (n.responses[a] == m.responses[a] || Some(a) == alias))
  }

  lemma ShapeFacts(m: Session, o: Owner)
    requires SessionValid(m, o)
    ensures m.owner == o && (m.retired <==> m.proof.Some?) && (m.prompts == map[] <==> m.current.None?)
  {
    hide PromptValid, LinksExact;
  }

  lemma StrippedGrows(e: Encoding, m: Session, n: Session)
    requires m.owner == n.owner && (m.retired ==> n.retired)
    requires (m.retired <==> m.proof.Some?) && (n.retired <==> n.proof.Some?) && (m.current.Some? ==> n.current.Some?)
    requires Created(m) ==> n.remoteID == m.remoteID && (n.createState == m.createState || n.createState.Deleted?)
    ensures SessionShell(e, Stripped(m)) + Field(!m.retired, SLACK_BYTES) <= SessionShell(e, Stripped(n)) + Field(!n.retired, SLACK_BYTES)
  {
    hide Quoted;
  }

  lemma ResponsesGrow(m: Session, n: Session, alias: Option<string>)
    requires KeepsParts(m, n, alias) && SessionAdvances(m, n)
    requires alias.Some? && alias.value in m.responses ==>
               LinkBytes(alias.value, m.responses[alias.value]) <= LinkBytes(alias.value, n.responses[alias.value]) + 2
    ensures Members(|m.responses|, Total(m.responses, LinkBytes))
            <= Members(|n.responses|, Total(n.responses, LinkBytes)) + (if alias.Some? then 2 else 0)
  {
    hide LinkBytes, PromptAdvances, LastAliasAdvances, LinkAdvances;
    if alias.Some? {
      TotalGrows(m.responses, n.responses, LinkBytes, alias.value, 2);
    } else if a :| a in m.responses {
      TotalGrows(m.responses, n.responses, LinkBytes, a, 0);
    }
  }

  lemma OperationsGrowRest(m: Session, n: Session)
    requires SessionAdvances(m, n)
    ensures Members(|m.operations|, Total(m.operations, OperationBytes)) <= Members(|n.operations|, Total(n.operations, OperationBytes))
  {
    hide OperationBytes, PromptAdvances, LastAliasAdvances, LinkAdvances;
    if id :| id in m.operations { TotalGrows(m.operations, n.operations, OperationBytes, id, 0); }
  }

  lemma LinksGrow(m: Session, n: Session, alias: Option<string>)
    requires KeepsParts(m, n, alias) && SessionAdvances(m, n)
    requires alias.Some? && alias.value in m.responses ==>
               LinkBytes(alias.value, m.responses[alias.value]) <= LinkBytes(alias.value, n.responses[alias.value]) + 2
    ensures SessionRest(m) <= SessionRest(n) + (if alias.Some? then 2 else 0)
  {
    hide LinkBytes, OperationBytes, Total, Members, SessionAdvances, KeepsParts;
    ResponsesGrow(m, n, alias);
    OperationsGrowRest(m, n);
  }

  /** A record that moves forwards keeps its mark, but for one lease and one response that completes. */
  lemma SessionGrows(e: Encoding, m: Session, n: Session, o: Owner, k: PromptKey, extra: nat, alias: Option<string>)
    requires SessionValid(m, o) && SessionValid(n, o) && SessionTexts(m) && SessionTexts(n) && SessionAdvances(m, n)
    requires KeepsParts(m, n, alias)
    requires alias.Some? && alias.value in m.responses ==>
               LinkBytes(alias.value, m.responses[alias.value]) <= LinkBytes(alias.value, n.responses[alias.value]) + 2
    requires forall j :: j in m.prompts ==>
               e.time(m.prompts[j].leaseExpires) <= e.time(n.prompts[j].leaseExpires) + (if j == k then extra else 0)
    ensures SessionMark(e, m) <= SessionMark(e, n) + extra + (if alias.Some? then 2 else 0)
  {
    hide SessionShell, SessionRest, Stripped, PromptMark, LinkBytes, SessionTexts, SessionValid;
    ShapeFacts(m, o);
    ShapeFacts(n, o);
    if k0 :| k0 in m.prompts { assert k0 in n.prompts; }
    StrippedGrows(e, m, n);
    LinksGrow(m, n, alias);
    forall j | j in m.prompts
      ensures PromptMarkOf(e)(j, m.prompts[j]) <= PromptMarkOf(e)(j, n.prompts[j]) + (if j == k then extra else 0)
    {
      PromptGrows(e, m, n, o, j, if j == k then extra else 0);
    }
    TotalGrows(m.prompts, n.prompts, PromptMarkOf(e), k, extra);
  }

  /** A ledger that moves forwards keeps its mark, but for what one owner's record lost. */
  lemma LedgerGrows(e: Encoding, l: Ledger, m: Ledger, o: Owner, extra: nat)
    requires Forward(l, m) && m.configDigest == l.configDigest
    requires forall x :: x in l.sessions ==>
               SessionMark(e, l.sessions[x]) <= SessionMark(e, m.sessions[x]) + (if x == o then extra else 0)
    ensures LedgerMark(e, l) <= LedgerMark(e, m) + extra
  {
    hide SessionMark;
    TotalGrows(l.sessions, m.sessions, SessionMarkOf(e), o, extra);
  }
}
