/** The events of one response, what they add up to, and what the callbacks are told. */
module ResponseStream {
  import opened Wrappers

  datatype ItemKind = Message | FunctionCall | Reasoning | OtherItem

  datatype Item = Item(kind: ItemKind, id: string, callID: string, name: string, arguments: string, texts: seq<string>)

  // A status is its text; "" is an absent one.
  datatype Response = Response(
    id: string,
    session: string,
    status: string,
    hasError: bool,
    hasIncomplete: bool,
    output: seq<Item>)

  datatype EventKind =
    | CreatedEvent | InProgressEvent | QueuedEvent
    | TextDelta
    | ItemAdded | ItemDone
    | ArgumentsDelta | ArgumentsDone
    | CompletedEvent | FailedEvent | IncompleteEvent | CancelledEvent | CanceledEvent
    | Informational
    | ErrorEvent
    | UnknownEvent

  datatype Event = Event(kind: EventKind, delta: string, response: Option<Response>, item: Option<Item>, hasError: bool, itemID: string)

  datatype Summary = Summary(
    responseID: string,
    session: string,
    status: string,
    hasError: bool,
    hasIncomplete: bool,
    text: string,
    calls: seq<Item>)

  const NO_SUMMARY := Summary("", "", "", false, false, "", [])

  datatype Callback = OnCreated(response: Response) | OnText(delta: string) | OnCall(call: Item)

  // What processing an event comes to: the summary, the callbacks made in order, and whether it went well.
  datatype Progress = Progress(summary: Summary, made: seq<Callback>, ok: bool)

  function Merge(s: Summary, r: Response): Summary {
    s.(responseID := if r.id != "" then r.id else s.responseID,
       session := if r.session != "" then r.session else s.session,
       status := if r.status != "" then r.status else s.status,
       hasError := s.hasError || r.hasError,
       hasIncomplete := s.hasIncomplete || r.hasIncomplete)
  }

  function Concat(parts: seq<string>): string {
    if parts == [] then "" else Concat(parts[..|parts| - 1]) + parts[|parts| - 1]
  }

  /** All text of the messages in an output. */
  function MessageText(output: seq<Item>): string {
    if output == [] then ""
    else
      var last := output[|output| - 1];
      MessageText(output[..|output| - 1]) + (if last.kind.Message? then Concat(last.texts) else "")
  }

  // Whether a call is known already, and whether it is known with other content.
  datatype CallState = NewCall | SameCall | ChangedCall

  function StateOfCall(calls: seq<Item>, item: Item): CallState {
    if calls == [] then NewCall
    else if calls[0].callID == item.callID then
      if calls[0].name != item.name || calls[0].arguments != item.arguments then ChangedCall else SameCall
    else StateOfCall(calls[1..], item)
  }

  // A callback may refuse what it is told. `refuses` says which the caller of this response refuses.
  function Tell(p: Progress, c: Callback, refuses: Callback -> bool): Progress {
    p.(made := p.made + [c], ok := !refuses(c))
  }

  /** The text of the terminal output continues the text that was streamed. */
  function TerminalText(p: Progress, full: string, refuses: Callback -> bool): Progress {
    if full == "" then p
    else if !(p.summary.text <= full) then p.(ok := false)
    else
      var remainder := full[|p.summary.text|..];
      if remainder == "" then p
      else Tell(p.(summary := p.summary.(text := p.summary.text + remainder)), OnText(remainder), refuses)
  }

  /** One more item of the terminal output: a call that is not known yet is added. */
  function OneCall(p: Progress, item: Item, refuses: Callback -> bool): Progress {
    if !p.ok || !item.kind.FunctionCall? then p
    else
      match StateOfCall(p.summary.calls, item)
      case ChangedCall => p.(ok := false)
      case SameCall => p
      case NewCall => Tell(p.(summary := p.summary.(calls := p.summary.calls + [item])), OnCall(item), refuses)
  }

  function TerminalCalls(p: Progress, output: seq<Item>, refuses: Callback -> bool): Progress {
    if output == [] then p
    else OneCall(TerminalCalls(p, output[..|output| - 1], refuses), output[|output| - 1], refuses)
  }

  function TerminalFallback(p: Progress, r: Response, refuses: Callback -> bool): Progress {
    var p1 := TerminalText(p, MessageText(r.output), refuses);
    if p1.ok then TerminalCalls(p1, r.output, refuses) else p1
  }

  function StatusOf(kind: EventKind): string {
    match kind
    case CompletedEvent => "completed"
    case FailedEvent => "failed"
    case IncompleteEvent => "incomplete"
    case CancelledEvent => "cancelled"
    case CanceledEvent => "canceled"
    case _ => ""
  }

  function WithStatus(p: Progress, kind: EventKind): Progress {
    if p.ok && p.summary.status == "" then p.(summary := p.summary.(status := StatusOf(kind))) else p
  }

  function ApplyEvent(p: Progress, e: Event, refuses: Callback -> bool): Progress
    requires p.ok
  {
    match e.kind
    case CreatedEvent | InProgressEvent | QueuedEvent =>
      if e.response.None? then p
      else
        var p1 := p.(summary := Merge(p.summary, e.response.value));
        if e.kind.CreatedEvent? then Tell(p1, OnCreated(e.response.value), refuses) else p1
    case TextDelta =>
      var p1 := p.(summary := p.summary.(text := p.summary.text + e.delta));
      if e.delta != "" then Tell(p1, OnText(e.delta), refuses) else p1
    case ItemDone =>
      if e.item.Some? && e.item.value.kind.FunctionCall? then
        Tell(p.(summary := p.summary.(calls := p.summary.calls + [e.item.value])), OnCall(e.item.value), refuses)
      else p
    case CompletedEvent =>
      if e.response.None? then WithStatus(p, e.kind)
      else WithStatus(TerminalFallback(p.(summary := Merge(p.summary, e.response.value)), e.response.value, refuses), e.kind)
    case FailedEvent | IncompleteEvent | CancelledEvent | CanceledEvent =>
      WithStatus(if e.response.Some? then p.(summary := Merge(p.summary, e.response.value)) else p, e.kind)
    case ErrorEvent => p.(summary := p.summary.(status := "failed", hasError := e.hasError))
    case _ => p
  }

  /** The events in order, up to the first that goes wrong. */
  function Fold(p: Progress, events: seq<Event>, refuses: Callback -> bool): Progress
    requires p.ok
  {
    if events == [] then p
    else
      var p1 := Fold(p, events[..|events| - 1], refuses);
      if p1.ok then ApplyEvent(p1, events[|events| - 1], refuses) else p1
  }

  /** A whole response in one document. */
  function CompleteItems(p: Progress, output: seq<Item>, refuses: Callback -> bool): Progress {
    if output == [] then p
    else
      var p1 := CompleteItems(p, output[..|output| - 1], refuses);
      var item := output[|output| - 1];
      if !p1.ok then p1
      else
        match item.kind
        case Message => CompleteTexts(p1, item.texts, refuses)
        case FunctionCall => Tell(p1.(summary := p1.summary.(calls := p1.summary.calls + [item])), OnCall(item), refuses)
        case _ => p1
  }

  function CompleteTexts(p: Progress, texts: seq<string>, refuses: Callback -> bool): Progress {
    if texts == [] then p
    else
      var p1 := CompleteTexts(p, texts[..|texts| - 1], refuses);
      var text := texts[|texts| - 1];
      if !p1.ok || text == "" then p1
      else Tell(p1.(summary := p1.summary.(text := p1.summary.text + text)), OnText(text), refuses)
  }

  function CompleteResponse(r: Response, completed: bool, refuses: Callback -> bool): Progress {
    var p := Tell(Progress(Merge(NO_SUMMARY, r), [], true), OnCreated(r), refuses);
    if p.ok && completed then CompleteItems(p, r.output, refuses) else p
  }

  // ---------------------------------------------------------------------------
  // Text conservation
  // ---------------------------------------------------------------------------

  /** The text the callbacks were told, in order. */
  function Told(made: seq<Callback>): string {
    if made == [] then ""
    else Told(made[..|made| - 1]) + (if made[|made| - 1].OnText? then made[|made| - 1].delta else "")
  }

  /** The calls the callbacks were told, in order. */
  function ToldCalls(made: seq<Callback>): seq<Item> {
    if made == [] then []
    else ToldCalls(made[..|made| - 1]) + (if made[|made| - 1].OnCall? then [made[|made| - 1].call] else [])
  }

  /** The callbacks were told exactly the text and the calls of the summary. */
  predicate Conserved(p: Progress) {
    Told(p.made) == p.summary.text && ToldCalls(p.made) == p.summary.calls
  }

  lemma TellMore(p: Progress, c: Callback, refuses: Callback -> bool)
    ensures Told(Tell(p, c, refuses).made) == Told(p.made) + (if c.OnText? then c.delta else "")
    ensures ToldCalls(Tell(p, c, refuses).made) == ToldCalls(p.made) + (if c.OnCall? then [c.call] else [])
  {
    assert (p.made + [c])[..|p.made|] == p.made;
  }

  lemma TextConserved(p: Progress, full: string, refuses: Callback -> bool)
    requires Conserved(p)
    ensures Conserved(TerminalText(p, full, refuses))
    ensures var p1 := TerminalText(p, full, refuses); full != "" && p1.ok && p.ok ==> p1.summary.text == full
  {
    if full != "" && p.summary.text <= full {
      var remainder := full[|p.summary.text|..];
      TellMore(p.(summary := p.summary.(text := p.summary.text + remainder)), OnText(remainder), refuses);
    }
  }

  lemma {:induction false} CallsConserved(p: Progress, output: seq<Item>, refuses: Callback -> bool)
    requires Conserved(p)
    ensures Conserved(TerminalCalls(p, output, refuses)) && TerminalCalls(p, output, refuses).summary.text == p.summary.text
  {
    if output != [] {
      var n := |output| - 1;
      CallsConserved(p, output[..n], refuses);
      var p1 := TerminalCalls(p, output[..n], refuses);
      TellMore(p1.(summary := p1.summary.(calls := p1.summary.calls + [output[n]])), OnCall(output[n]), refuses);
    }
  }

  lemma CreatedConserved(p: Progress, e: Event, refuses: Callback -> bool)
    requires p.ok && Conserved(p) && e.kind.CreatedEvent?
    ensures Conserved(ApplyEvent(p, e, refuses))
  {
    hide Told, ToldCalls;
    if e.response.Some? { TellMore(p.(summary := Merge(p.summary, e.response.value)), OnCreated(e.response.value), refuses); }
  }

  lemma DeltaConserved(p: Progress, e: Event, refuses: Callback -> bool)
    requires p.ok && Conserved(p) && e.kind.TextDelta?
    ensures Conserved(ApplyEvent(p, e, refuses))
  {
    hide Told, ToldCalls;
    TellMore(p.(summary := p.summary.(text := p.summary.text + e.delta)), OnText(e.delta), refuses);
  }

  lemma ItemConserved(p: Progress, e: Event, refuses: Callback -> bool)
    requires p.ok && Conserved(p) && e.kind.ItemDone?
    ensures Conserved(ApplyEvent(p, e, refuses))
  {
    hide Told, ToldCalls;
    if e.item.Some? {
      TellMore(p.(summary := p.summary.(calls := p.summary.calls + [e.item.value])), OnCall(e.item.value), refuses);
    }
  }

  lemma FallbackConserved(p: Progress, r: Response, refuses: Callback -> bool)
    requires Conserved(p)
    ensures Conserved(TerminalFallback(p, r, refuses))
  {
    hide Told, ToldCalls, TerminalText, TerminalCalls, MessageText;
    TextConserved(p, MessageText(r.output), refuses);
    CallsConserved(TerminalText(p, MessageText(r.output), refuses), r.output, refuses);
  }

  lemma CompletedConserved(p: Progress, e: Event, refuses: Callback -> bool)
    requires p.ok && Conserved(p) && e.kind.CompletedEvent?
    ensures Conserved(ApplyEvent(p, e, refuses))
  {
    hide Told, ToldCalls, TerminalFallback;
    if e.response.Some? { FallbackConserved(p.(summary := Merge(p.summary, e.response.value)), e.response.value, refuses); }
  }

  /** After every event, refused ones and the terminal reconciliation included. */
  lemma EventConserved(p: Progress, e: Event, refuses: Callback -> bool)
    requires p.ok && Conserved(p)
    ensures Conserved(ApplyEvent(p, e, refuses))
  {
    hide ApplyEvent, Conserved;
    match e.kind
    case CreatedEvent => CreatedConserved(p, e, refuses);
    case TextDelta => DeltaConserved(p, e, refuses);
    case ItemDone => ItemConserved(p, e, refuses);
    case CompletedEvent => CompletedConserved(p, e, refuses);
    case _ => OtherConserved(p, e, refuses);
  }

  lemma OtherConserved(p: Progress, e: Event, refuses: Callback -> bool)
    requires p.ok && Conserved(p)
    requires !e.kind.CreatedEvent? && !e.kind.TextDelta? && !e.kind.ItemDone? && !e.kind.CompletedEvent?
    ensures Conserved(ApplyEvent(p, e, refuses))
  {
    hide Told, ToldCalls, Tell, TerminalFallback;
  }

  /** Over every stream: what the callbacks were told is what the summary says, text and calls, in order. */
  lemma {:induction false} StreamConserved(events: seq<Event>, refuses: Callback -> bool)
    ensures Conserved(Fold(Progress(NO_SUMMARY, [], true), events, refuses))
  {
    if events != [] {
      var n := |events| - 1;
      StreamConserved(events[..n], refuses);
      var p := Fold(Progress(NO_SUMMARY, [], true), events[..n], refuses);
      if p.ok { EventConserved(p, events[n], refuses); }
    }
  }

  lemma {:induction false} TextsConserved(p: Progress, texts: seq<string>, refuses: Callback -> bool)
    requires Conserved(p)
    ensures Conserved(CompleteTexts(p, texts, refuses))
  {
    if texts != [] {
      var n := |texts| - 1;
      TextsConserved(p, texts[..n], refuses);
      var p1 := CompleteTexts(p, texts[..n], refuses);
      TellMore(p1.(summary := p1.summary.(text := p1.summary.text + texts[n])), OnText(texts[n]), refuses);
    }
  }

  lemma {:induction false} ItemsConserved(p: Progress, output: seq<Item>, refuses: Callback -> bool)
    requires Conserved(p)
    ensures Conserved(CompleteItems(p, output, refuses))
  {
    if output != [] {
      var n := |output| - 1;
      ItemsConserved(p, output[..n], refuses);
      var p1 := CompleteItems(p, output[..n], refuses);
      TextsConserved(p1, output[n].texts, refuses);
      TellMore(p1.(summary := p1.summary.(calls := p1.summary.calls + [output[n]])), OnCall(output[n]), refuses);
    }
  }

  lemma DocumentConserved(r: Response, completed: bool, refuses: Callback -> bool)
    ensures Conserved(CompleteResponse(r, completed, refuses))
  {
    var p := Progress(Merge(NO_SUMMARY, r), [], true);
    TellMore(p, OnCreated(r), refuses);
    ItemsConserved(Tell(p, OnCreated(r), refuses), r.output, refuses);
  }

  /** A completed stream's text is the whole text of its terminal output, when that has any. */
  lemma TerminalTextWhole(p: Progress, e: Event, refuses: Callback -> bool)
    requires p.ok && Conserved(p) && e.kind.CompletedEvent? && e.response.Some?
    requires ApplyEvent(p, e, refuses).ok && MessageText(e.response.value.output) != ""
    ensures ApplyEvent(p, e, refuses).summary.text == MessageText(e.response.value.output)
    ensures p.summary.text <= MessageText(e.response.value.output)
  {
    hide TerminalCalls, Tell;
    var p1 := p.(summary := Merge(p.summary, e.response.value));
    TextConserved(p1, MessageText(e.response.value.output), refuses);
    if TerminalText(p1, MessageText(e.response.value.output), refuses).ok {
      CallsConserved(TerminalText(p1, MessageText(e.response.value.output), refuses), e.response.value.output, refuses);
    }
  }

  // ---------------------------------------------------------------------------
  // The summary as the client keeps it
  // ---------------------------------------------------------------------------

  class StreamSummary {
    var summary: Summary
    var made: seq<Callback>
    const refuses: Callback -> bool

    constructor (refuses: Callback -> bool)
      ensures this.refuses == refuses && summary == NO_SUMMARY && made == []
    {
      this.refuses := refuses;
      summary, made := NO_SUMMARY, [];
    }

    method Call(c: Callback) returns (ok: bool)
      modifies this`made
      ensures made == old(made) + [c] && ok == !refuses(c)
    {
      made := made + [c];
      ok := !refuses(c);
    }

    method MergeResponse(r: Response)
      modifies this`summary
      ensures summary == Merge(old(summary), r)
    {
      if r.id != "" { summary := summary.(responseID := r.id); }
      if r.session != "" { summary := summary.(session := r.session); }
      if r.status != "" { summary := summary.(status := r.status); }
      if r.hasError { summary := summary.(hasError := true); }
      if r.hasIncomplete { summary := summary.(hasIncomplete := true); }
    }

    method FindCall(item: Item) returns (state: CallState)
      ensures state == StateOfCall(summary.calls, item)
    {
      for i := 0 to |summary.calls|
        invariant StateOfCall(summary.calls, item) == StateOfCall(summary.calls[i..], item)
      {
        var call := summary.calls[i];
        if call.callID == item.callID {
          return if call.name != item.name || call.arguments != item.arguments then ChangedCall else SameCall;
        }
        assert summary.calls[i..][1..] == summary.calls[i + 1..];
      }
      return NewCall;
    }

    method CollectText(output: seq<Item>) returns (full: string)
      ensures full == MessageText(output)
    {
      full := "";
      for i := 0 to |output|
        invariant full == MessageText(output[..i])
      {
        assert output[..i + 1][..i] == output[..i];
        if output[i].kind.Message? {
          var before := full;
          for j := 0 to |output[i].texts|
            invariant full == before + Concat(output[i].texts[..j])
          {
            assert output[i].texts[..j + 1][..j] == output[i].texts[..j];
            full := full + output[i].texts[j];
          }
          assert output[i].texts[..|output[i].texts|] == output[i].texts;
        }
      }
      assert output[..|output|] == output;
    }

    /** Reconcile with the terminal output: the rest of the text, and the calls not seen before. */
    method ApplyTerminalOutput(r: Response) returns (ok: bool)
      modifies this
      ensures Progress(summary, made, ok) == TerminalFallback(Progress(old(summary), old(made), true), r, refuses)
    {
      ghost var p := Progress(summary, made, true);
      var full := CollectText(r.output);
      if full != "" {
        if !(summary.text <= full) {
          return false;
        }
        var remainder := full[|summary.text|..];
        if remainder != "" {
          summary := summary.(text := summary.text + remainder);
          ok := Call(OnText(remainder));
          if !ok {
            return false;
          }
        }
      }
      ok := AddTerminalCalls(r.output);
    }

    method AddTerminalCalls(output: seq<Item>) returns (ok: bool)
      modifies this
      ensures Progress(summary, made, ok) == TerminalCalls(Progress(old(summary), old(made), true), output, refuses)
    {
      hide TerminalCalls, StateOfCall;
      ghost var p := Progress(summary, made, true);
      NoCalls(p, refuses);
      for i := 0 to |output|
        invariant Progress(summary, made, true) == TerminalCalls(p, output[..i], refuses)
      {
        CallsNext(p, output, i, refuses);
        var item := output[i];
        if item.kind.FunctionCall? {
          var state := FindCall(item);
          if state.ChangedCall? {
            StoppedCalls(p, output, i + 1, refuses);
            return false;
          }
          if state.NewCall? {
            summary := summary.(calls := summary.calls + [item]);
            ok := Call(OnCall(item));
            if !ok {
              StoppedCalls(p, output, i + 1, refuses);
              return false;
            }
          }
        }
      }
      assert output[..|output|] == output;
      ok := true;
    }

    method Apply(e: Event) returns (ok: bool)
      modifies this
      ensures Progress(summary, made, ok) == ApplyEvent(Progress(old(summary), old(made), true), e, refuses)
    {
      ok := true;
      match e.kind {
        case CreatedEvent =>
          if e.response.Some? {
            MergeResponse(e.response.value);
            ok := Call(OnCreated(e.response.value));
          }
        case InProgressEvent | QueuedEvent =>
          if e.response.Some? {
            MergeResponse(e.response.value);
          }
        case TextDelta =>
          summary := summary.(text := summary.text + e.delta);
          if e.delta != "" {
            ok := Call(OnText(e.delta));
          }
        case ItemDone =>
          if e.item.Some? && e.item.value.kind.FunctionCall? {
            summary := summary.(calls := summary.calls + [e.item.value]);
            ok := Call(OnCall(e.item.value));
          }
        case CompletedEvent | FailedEvent | IncompleteEvent | CancelledEvent | CanceledEvent =>
          ok := ApplyTerminal(e);
        case ErrorEvent =>
          summary := summary.(status := "failed", hasError := e.hasError);
        case _ =>
      }
    }

    method ApplyTerminal(e: Event) returns (ok: bool)
      requires e.kind.CompletedEvent? || e.kind.FailedEvent? || e.kind.IncompleteEvent? || e.kind.CancelledEvent? || e.kind.CanceledEvent?
      modifies this
      ensures Progress(summary, made, ok) == ApplyEvent(Progress(old(summary), old(made), true), e, refuses)
    {
      ok := true;
      if e.response.Some? {
        MergeResponse(e.response.value);
        if e.kind.CompletedEvent? {
          ok := ApplyTerminalOutput(e.response.value);
          if !ok {
            return false;
          }
        }
      }
      if summary.status == "" {
        summary := summary.(status := StatusOf(e.kind));
      }
    }
  }

  lemma NoCalls(p: Progress, refuses: Callback -> bool)
    ensures TerminalCalls(p, [], refuses) == p
  {
  }

  lemma CallsNext(p: Progress, output: seq<Item>, i: nat, refuses: Callback -> bool)
    requires i < |output|
    ensures TerminalCalls(p, output[..i + 1], refuses) == OneCall(TerminalCalls(p, output[..i], refuses), output[i], refuses)
  {
    hide OneCall;
    assert output[..i + 1][..i] == output[..i];
  }

  lemma {:induction false} StoppedCalls(p: Progress, output: seq<Item>, n: nat, refuses: Callback -> bool)
    requires n <= |output| && !TerminalCalls(p, output[..n], refuses).ok
    ensures TerminalCalls(p, output, refuses) == TerminalCalls(p, output[..n], refuses)
    decreases |output|
  {
    if n < |output| {
      assert output[..|output| - 1][..n] == output[..n];
      StoppedCalls(p, output[..|output| - 1], n, refuses);
    } else {
      assert output[..n] == output;
    }
  }
}
