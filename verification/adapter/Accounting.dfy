/** Tool calls and their results: nothing lost, nothing answered twice, limits kept. */
module AdapterAccounting {
  import opened Wrappers
  import opened Sorting
  import opened AdapterTurn

  /** The maps of pending calls agree; buffered results are for pending calls; no call is both pending and answered. */
  ghost predicate Accounted(cfg: Config, s: Calls) {
    && s.pendingCalls.Keys == s.pendingTools.Keys && s.providerCallIDs.Keys == s.pendingTools.Keys
    && s.buffered.Keys <= s.pendingTools.Keys
    && s.submitted.Keys !! s.pendingTools.Keys
    && (forall c :: c in s.pendingTools ==> s.pendingCalls[c].name == s.pendingTools[c])
    && (forall c :: c in s.providerCallIDs ==> cfg.orkaCallID(s.providerCallIDs[c]) == c)
    && (forall c :: c in s.buffered ==> s.buffered[c].callID == c)
  }

  predicate WithinLimits(cfg: Config, s: Calls) {
    && (cfg.maxTurnBytes > 0 ==> s.stateBytes <= cfg.maxTurnBytes)
    && (cfg.maxCalls > 0 ==> s.callCount <= cfg.maxCalls)
  }

  lemma CallAdded(cfg: Config, s: Calls, provider: string, c: Call)
    requires Accounted(cfg, s) && WithinLimits(cfg, s)
    requires cfg.orkaCallID(provider) !in s.pendingTools && cfg.orkaCallID(provider) !in s.submitted
    requires WithinCallLimits(cfg, s, CallBytes(cfg.orkaCallID(provider), provider, c))
    ensures Accounted(cfg, AddCall(s, cfg.orkaCallID(provider), provider, c))
    ensures WithinLimits(cfg, AddCall(s, cfg.orkaCallID(provider), provider, c))
  {
  }

  // ---------------------------------------------------------------------------
  // Staging: all or none
  // ---------------------------------------------------------------------------

  /** A result that changes nothing: it was taken in before, and is the same. */
  predicate Replay(s: Calls, r: ToolResult) {
    if r.callID in s.submitted then s.submitted[r.callID] == r
    else r.callID in s.buffered && s.buffered[r.callID] == r
  }

  /** A result for a pending call that has none. */
  predicate Fresh(s: Calls, completed: bool, r: ToolResult) {
    !completed && r.callID !in s.submitted && r.callID in s.pendingTools && r.callID !in s.buffered
  }

  ghost predicate StagedMeaning(s: Calls, completed: bool, results: seq<ToolResult>, r: Result<seq<ToolResult>, Refusal>) {
    && (r.Ok? <==> forall x :: x in results ==> Replay(s, x) || Fresh(s, completed, x))
    && (r.Ok? ==> DistinctResults(r.value) && forall x :: x in r.value <==> x in results && Fresh(s, completed, x))
  }

  /** What one more result does to the staged ones. */
  function OneStaged(s: Calls, completed: bool, r: Result<seq<ToolResult>, Refusal>, last: ToolResult): Result<seq<ToolResult>, Refusal> {
    if r.Err? then r
    else if Replay(s, last) then r
    else if Fresh(s, completed, last) then Ok(r.value + [last])
    else Err(if last.callID in s.submitted then Conflicting
             else if completed then TooLate
             else if last.callID !in s.pendingTools then NotPending
             else Conflicting)
  }

  lemma StagedUnfolds(s: Calls, completed: bool, results: seq<ToolResult>, last: ToolResult)
    requires (completed ==> s.buffered == map[]) && s.buffered.Keys <= s.pendingTools.Keys
    ensures Staged(s, completed, results + [last]) == OneStaged(s, completed, Staged(s, completed, results), last)
  {
    assert (results + [last])[..|results + [last]| - 1] == results;
  }

  lemma StagedStep(s: Calls, completed: bool, results: seq<ToolResult>, last: ToolResult)
    requires DistinctResults(results + [last]) && (completed ==> s.buffered == map[]) && s.buffered.Keys <= s.pendingTools.Keys
    requires StagedMeaning(s, completed, results, Staged(s, completed, results))
    ensures StagedMeaning(s, completed, results + [last], Staged(s, completed, results + [last]))
  {
    hide Staged;
    var all := results + [last];
    StagedUnfolds(s, completed, results, last);
    assert forall x :: x in all <==> x in results || x == last;
    assert forall x :: x in results ==> x.callID != last.callID by {
      forall x | x in results ensures x.callID != last.callID {
        var i :| 0 <= i < |results| && results[i] == x;
        assert all[i] == x && all[|results|] == last;
      }
    }
    if Staged(s, completed, results).Ok? {
      StagedGrows(s, completed, results, Staged(s, completed, results).value, last);
    }
  }

  lemma StagedGrows(s: Calls, completed: bool, results: seq<ToolResult>, staged: seq<ToolResult>, last: ToolResult)
    requires DistinctResults(staged) && forall x :: x in results ==> x.callID != last.callID
    requires forall x :: x in staged <==> x in results && Fresh(s, completed, x)
    ensures DistinctResults(staged + [last])
    ensures forall x :: x in staged + [last] <==> x in staged || x == last
  {
    assert forall i :: 0 <= i < |staged| ==> staged[i] in staged;
  }

  /** What is staged: exactly the fresh results, if every other one is a replay; otherwise nothing. */
  lemma {:induction false} StagedExactly(s: Calls, completed: bool, results: seq<ToolResult>)
    requires DistinctResults(results) && (completed ==> s.buffered == map[]) && s.buffered.Keys <= s.pendingTools.Keys
    ensures StagedMeaning(s, completed, results, Staged(s, completed, results))
  {
    if results != [] {
      var n := |results| - 1;
      StagedExactly(s, completed, results[..n]);
      assert results == results[..n] + [results[n]];
      StagedStep(s, completed, results[..n], results[n]);
    }
  }

  lemma {:induction false} BufferedExactly(buffered: map<string, ToolResult>, staged: seq<ToolResult>)
    requires DistinctResults(staged)
    ensures var b := Buffered(buffered, staged);
            && (forall c :: c in b <==> c in buffered || exists r :: r in staged && r.callID == c)
            && (forall r :: r in staged ==> b[r.callID] == r)
            && (forall c :: c in buffered && (forall r :: r in staged ==> r.callID != c) ==> b[c] == buffered[c])
  {
    if staged != [] {
      var n := |staged| - 1;
      BufferedExactly(buffered, staged[..n]);
      assert forall r :: r in staged <==> r in staged[..n] || r == staged[n];
      assert forall r :: r in staged[..n] ==> r.callID != staged[n].callID;
    }
  }

  lemma SomeResult(results: seq<ToolResult>)
    ensures results == [] || exists r :: r in results
  {
    if results != [] { assert results[0] in results; }
  }

  lemma StageKeeps(cfg: Config, s: Calls, completed: bool, results: seq<ToolResult>)
    requires Accounted(cfg, s) && DistinctResults(results) && (completed ==> s.buffered == map[])
    requires Staged(s, completed, results).Ok?
    ensures var staged := Staged(s, completed, results).value;
            && Accounted(cfg, Stage(cfg, s, staged))
            && (completed ==> staged == [] && Stage(cfg, s, staged) == s)
            && (WithinLimits(cfg, s) && (cfg.maxTurnBytes > 0 ==> s.stateBytes + TotalBytes(cfg, staged) <= cfg.maxTurnBytes)
                ==> WithinLimits(cfg, Stage(cfg, s, staged)))
  {
    var staged := Staged(s, completed, results).value;
    StagedExactly(s, completed, results);
    BufferedExactly(s.buffered, staged);
    SomeResult(staged);
  }

  /** Submitting the same results again changes nothing at all. */
  lemma ReplayChangesNothing(cfg: Config, t: Turn, results: seq<ToolResult>)
    requires Accounted(cfg, t.calls) && DistinctResults(results) && (t.completed ==> t.calls.buffered == map[])
    requires forall r :: r in results ==> Replay(t.calls, r)
    requires cfg.maxTurnBytes > 0 ==> t.calls.stateBytes <= cfg.maxTurnBytes
    ensures Continue(cfg, t, results) == (t, Ok(None))
  {
    StagedExactly(t.calls, t.completed, results);
    var staged := Staged(t.calls, t.completed, results).value;
    SomeResult(staged);
  }

  // ---------------------------------------------------------------------------
  // A continuation
  // ---------------------------------------------------------------------------

  predicate DistinctOutputs(outputs: seq<FunctionOutput>) {
    forall i, j :: 0 <= i < j < |outputs| ==> outputs[i].callID != outputs[j].callID
  }

  /** Each pending provider call is answered exactly once, with the result given for it. */
  lemma OutputsExact(cfg: Config, s: Calls)
    requires Accounted(cfg, s) && Answered(s)
    ensures var outputs := Outputs(s, Sorted(s.pendingTools.Keys));
            && DistinctOutputs(outputs)
            && (forall p :: (exists o :: o in outputs && o.callID == p) <==> p in s.providerCallIDs.Values)
            && forall o :: o in outputs ==> cfg.orkaCallID(o.callID) in s.buffered && o == OutputOf(s, cfg.orkaCallID(o.callID))
  {
    var order := Sorted(s.pendingTools.Keys);
    var outputs := Outputs(s, order);
    forall p | p in s.providerCallIDs.Values ensures exists o :: o in outputs && o.callID == p {
      var c :| c in s.providerCallIDs && s.providerCallIDs[c] == p;
      assert c in order;
      var i :| 0 <= i < |order| && order[i] == c;
      assert outputs[i] in outputs && outputs[i].callID == p;
    }
  }

  /** Over all continuations: the outputs sent are exactly the results submitted, each once. */
  ghost predicate SentExactly(cfg: Config, submitted: map<string, ToolResult>, sent: seq<FunctionOutput>) {
    && DistinctOutputs(sent)
    && (forall o :: o in sent ==> cfg.orkaCallID(o.callID) in submitted)
    && (forall c :: c in submitted ==> exists o :: o in sent && cfg.orkaCallID(o.callID) == c)
  }

  /** An earlier and a later output never answer the same call. */
  lemma OutputsApart(cfg: Config, s: Calls, sent: seq<FunctionOutput>, outputs: seq<FunctionOutput>)
    requires DistinctOutputs(sent) && DistinctOutputs(outputs) && s.submitted.Keys !! s.buffered.Keys
    requires forall o :: o in sent ==> cfg.orkaCallID(o.callID) in s.submitted
    requires forall o :: o in outputs ==> cfg.orkaCallID(o.callID) in s.buffered
    ensures DistinctOutputs(sent + outputs)
  {
    forall i, j | 0 <= i < |sent| && 0 <= j < |outputs| ensures sent[i].callID != outputs[j].callID {
      assert sent[i] in sent && outputs[j] in outputs;
    }
  }

  lemma OutputsCover(cfg: Config, s: Calls)
    requires Accounted(cfg, s) && Answered(s)
    ensures forall c :: c in s.buffered ==>
              exists o :: o in Outputs(s, Sorted(s.pendingTools.Keys)) && cfg.orkaCallID(o.callID) == c
  {
    OutputsExact(cfg, s);
    var outputs := Outputs(s, Sorted(s.pendingTools.Keys));
    forall c | c in s.buffered ensures exists o :: o in outputs && cfg.orkaCallID(o.callID) == c {
      assert s.providerCallIDs[c] in s.providerCallIDs.Values;
      var o :| o in outputs && o.callID == s.providerCallIDs[c];
    }
  }

  lemma SentMore(cfg: Config, s: Calls, emitted: set<string>, sent: seq<FunctionOutput>, outputs: seq<FunctionOutput>)
    requires SentExactly(cfg, s.submitted, sent) && DistinctOutputs(sent + outputs)
    requires forall o :: o in outputs ==> cfg.orkaCallID(o.callID) in s.buffered
    requires forall c :: c in s.buffered ==> exists o :: o in outputs && cfg.orkaCallID(o.callID) == c
    ensures SentExactly(cfg, Submitted(s, emitted).submitted, sent + outputs)
  {
    var all := sent + outputs;
    assert forall o :: o in all <==> o in sent || o in outputs;
    forall c | c in Submitted(s, emitted).submitted ensures exists o :: o in all && cfg.orkaCallID(o.callID) == c {
      if c in s.buffered {
        var o :| o in outputs && cfg.orkaCallID(o.callID) == c;
        assert o in all;
      } else {
        var o :| o in sent && cfg.orkaCallID(o.callID) == c;
        assert o in all;
      }
    }
  }

  lemma SubmittedKeeps(cfg: Config, s: Calls, emitted: set<string>, sent: seq<FunctionOutput>)
    requires Accounted(cfg, s) && Answered(s) && SentExactly(cfg, s.submitted, sent)
    ensures Accounted(cfg, Submitted(s, emitted))
    ensures SentExactly(cfg, Submitted(s, emitted).submitted, sent + Outputs(s, Sorted(s.pendingTools.Keys)))
  {
    hide SentExactly, Outputs, DistinctOutputs;
    var outputs := Outputs(s, Sorted(s.pendingTools.Keys));
    OutputsExact(cfg, s);
    OutputsCover(cfg, s);
    SentDistinct(cfg, s, sent);
    OutputsApart(cfg, s, sent, outputs);
    SentMore(cfg, s, emitted, sent, outputs);
  }

  lemma SentDistinct(cfg: Config, s: Calls, sent: seq<FunctionOutput>)
    requires SentExactly(cfg, s.submitted, sent)
    ensures DistinctOutputs(sent) && forall o :: o in sent ==> cfg.orkaCallID(o.callID) in s.submitted
  {
  }
}
