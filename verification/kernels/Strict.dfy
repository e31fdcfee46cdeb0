/**
 Strict acceptance of a streamed response: one coherent completed event, one response identity,
 no unfinished function call, and nothing after it but one [DONE]. The framing is a restricted
 form of section 9.2 of the WHATWG HTML Standard.
 */
module StrictStream {
  import opened Wrappers
  import opened Text
  import opened ResponseStream

  const MAX_EVENT_BYTES: nat := 8388608
  const MAX_EVENTS: nat := 4096
  const MAX_OUTPUT_BYTES: nat := 1048576
  const MAX_CALLS: nat := 256

  // ---------------------------------------------------------------------------
  // Framing
  // ---------------------------------------------------------------------------

  const DATA := "data:"

  predicate Ignored(line: string) {
    ":" <= line || "event:" <= line || "id:" <= line || "retry:" <= line
  }

  function DataPart(line: string): string
    requires DATA <= line
  {
    var part := line[|DATA|..];
    if " " <= part then part[1..] else part
  }

  function Joined(data: string, part: string): string {
    if data == "" then part else data + "\n" + part
  }

  // The payloads of the complete events so far, and the lines of the one that is open.
  datatype Frames = Frames(payloads: seq<string>, data: string)

  function FrameLine(f: Frames, line: string): Option<Frames> {
    if line == "" then Some(Frames(if f.data == "" then f.payloads else f.payloads + [f.data], ""))
    else if DATA <= line then
      if |f.data| + |DataPart(line)| + 1 > MAX_EVENT_BYTES then None else Some(f.(data := Joined(f.data, DataPart(line))))
    else if Ignored(line) then Some(f)
    else None
  }

  function FrameLines(lines: seq<string>): Option<Frames> {
    if lines == [] then Some(Frames([], ""))
    else
      match FrameLines(lines[..|lines| - 1])
      case None => None
      case Some(f) => FrameLine(f, lines[|lines| - 1])
  }

  // ---------------------------------------------------------------------------
  // What one event has to be
  // ---------------------------------------------------------------------------

  predicate Early(status: string) {
    status == "in_progress" || status == "queued"
  }

  predicate EventOk(e: Event) {
    match e.kind
    case CreatedEvent | InProgressEvent | QueuedEvent => e.response.Some? && Early(e.response.value.status)
    case CompletedEvent => e.response.Some? && e.response.value.status == "completed"
    case ItemAdded => e.item.Some? && (e.item.value.kind.FunctionCall? ==> SafeString(e.item.value.id, MAX_IDENTIFIER_BYTES))
    case ItemDone => e.item.Some?
    case ArgumentsDelta | ArgumentsDone => SafeString(e.itemID, MAX_IDENTIFIER_BYTES)
    case TextDelta | Informational => true
    case _ => false
  }

  predicate Merges(e: Event) {
    (e.kind.CreatedEvent? || e.kind.InProgressEvent? || e.kind.QueuedEvent? || e.kind.CompletedEvent?) && e.response.Some?
  }

  predicate Opens(e: Event, id: string) {
    || (e.kind.ItemAdded? && e.item.Some? && e.item.value.kind.FunctionCall? && e.item.value.id == id)
    || ((e.kind.ArgumentsDelta? || e.kind.ArgumentsDone?) && e.itemID == id)
  }

  predicate CallIn(output: seq<Item>, id: string) {
    exists i :: 0 <= i < |output| && output[i].kind.FunctionCall? && output[i].id == id
  }

  predicate Closes(e: Event, id: string) {
    || (e.kind.ItemDone? && e.item.Some? && e.item.value.kind.FunctionCall? && e.item.value.id == id)
    || (e.kind.CompletedEvent? && e.response.Some? && CallIn(e.response.value.output, id))
  }

  /** Some event opened this function call, and none after it closed it. */
  ghost predicate Unfinished(events: seq<Event>, id: string) {
    exists i :: 0 <= i < |events| && Opens(events[i], id) && forall j :: i < j < |events| ==> !Closes(events[j], id)
  }

  /** Every response event names the response that the events before it named. */
  ghost predicate OneIdentity(events: seq<Event>) {
    forall i, j :: 0 <= i < j < |events| && Merges(events[i]) && events[j].response.Some? ==>
                     events[i].response.value.id == events[j].response.value.id
  }

  // A decoder reads one event; it yields no response without an identity.
  type Decoder = string -> Option<Event>

  ghost predicate DecoderOk(decode: Decoder) {
    forall p :: decode(p).Some? && decode(p).value.response.Some? ==> decode(p).value.response.value.id != ""
  }

  predicate IsDone(p: string) {
    Trimmed(p) == "[DONE]"
  }

  function TrimLeft(p: string): string {
    if p != "" && IsSpace(p[0]) then TrimLeft(p[1..]) else p
  }

  function Trimmed(p: string): string {
    var q := TrimLeft(p);
    TrimRight(q)
  }

  function TrimRight(p: string): string {
    if p != "" && IsSpace(p[|p| - 1]) then TrimRight(p[..|p| - 1]) else p
  }

  function Accepting(): Callback -> bool {
    (c: Callback) => false
  }

  const START := Progress(NO_SUMMARY, [], true)

  function Total(events: seq<Event>): Progress {
    Fold(START, events, Accepting())
  }

  function Events(decode: Decoder, payloads: seq<string>): seq<Event>
    requires forall i :: 0 <= i < |payloads| ==> decode(payloads[i]).Some?
  {
    seq(|payloads|, i requires 0 <= i < |payloads| => decode(payloads[i]).value)
  }

  /** A beginning of a stream: every payload an admissible event, and nothing final yet. */
  ghost predicate Beginning(decode: Decoder, payloads: seq<string>) {
    && (forall i :: 0 <= i < |payloads| ==> !IsDone(payloads[i]) && decode(payloads[i]).Some?)
    && var events := Events(decode, payloads);
       && (forall i :: 0 <= i < |events| ==> EventOk(events[i]) && !events[i].kind.CompletedEvent?)
       && OneIdentity(events) && Total(events).ok && ByteLength(Total(events).summary.text) <= MAX_OUTPUT_BYTES
  }

  /** A whole stream: a beginning, then one coherent completed event. */
  ghost predicate Complete(decode: Decoder, payloads: seq<string>) {
    && payloads != []
    && Beginning(decode, payloads[..|payloads| - 1])
    && !IsDone(payloads[|payloads| - 1]) && decode(payloads[|payloads| - 1]).Some?
    && var events := Events(decode, payloads[..|payloads| - 1]) + [decode(payloads[|payloads| - 1]).value];
       && EventOk(events[|events| - 1]) && events[|events| - 1].kind.CompletedEvent?
       && (forall id :: !Unfinished(events, id))
       && OneIdentity(events) && Total(events).ok && ByteLength(Total(events).summary.text) <= MAX_OUTPUT_BYTES
  }

  // ---------------------------------------------------------------------------
  // The machine
  // ---------------------------------------------------------------------------

  datatype Strict = Strict(progress: Progress, pending: set<string>, terminal: bool, done: bool, count: nat)

  const INITIAL := Strict(START, {}, false, false, 0)

  function CallIDs(output: seq<Item>): set<string> {
    set i | 0 <= i < |output| && output[i].kind.FunctionCall? :: output[i].id
  }

  function PendingAfter(pending: set<string>, e: Event): set<string> {
    match e.kind
    case ItemAdded => if e.item.Some? && e.item.value.kind.FunctionCall? then pending + {e.item.value.id} else pending
    case ItemDone => if e.item.Some? && e.item.value.kind.FunctionCall? then pending - {e.item.value.id} else pending
    case ArgumentsDelta | ArgumentsDone => pending + {e.itemID}
    case CompletedEvent => if e.response.Some? then pending - CallIDs(e.response.value.output) else pending
    case _ => pending
  }

  function StepEvent(st: Strict, e: Event): Option<Strict>
    requires st.progress.ok
  {
    var id := st.progress.summary.responseID;
    if e.response.Some? && id != "" && id != e.response.value.id then None
    else if !EventOk(e) then None
    else if e.kind.CompletedEvent? && PendingAfter(st.pending, e) != {} then None
    else
      var p := ApplyEvent(st.progress, e, Accepting());
      if !p.ok || ByteLength(p.summary.text) > MAX_OUTPUT_BYTES then None
      else Some(Strict(p, PendingAfter(st.pending, e), e.kind.CompletedEvent?, false, st.count))
  }

  function Step(decode: Decoder, st0: Strict, payload: string): Option<Strict>
    requires st0.progress.ok
  {
    var st := st0.(count := st0.count + 1);
    if st.count > MAX_EVENTS || st.done then None
    else if IsDone(payload) then (if st.terminal then Some(st.(done := true)) else None)
    else if st.terminal then None
    else match decode(payload)
         case None => None
         case Some(e) => StepEvent(st, e)
  }

  function Steps(decode: Decoder, payloads: seq<string>): (r: Option<Strict>)
    ensures r.Some? ==> r.value.progress.ok && r.value.count == |payloads| <= MAX_EVENTS
  {
    if payloads == [] then Some(INITIAL)
    else
      match Steps(decode, payloads[..|payloads| - 1])
      case None => None
      case Some(st) => Step(decode, st, payloads[|payloads| - 1])
  }

  // ---------------------------------------------------------------------------
  // What the machine accepts
  // ---------------------------------------------------------------------------

  lemma FoldMore(events: seq<Event>, e: Event)
    ensures Total(events).ok ==> Total(events + [e]) == ApplyEvent(Total(events), e, Accepting())
    ensures !Total(events).ok ==> !Total(events + [e]).ok
  {
    assert (events + [e])[..|events|] == events;
  }

  /** The identity in the summary is that of the last event that had one. */
  lemma {:induction false} IdentityKept(events: seq<Event>)
    requires Total(events).ok
    requires forall i :: 0 <= i < |events| ==> EventOk(events[i])
    requires forall i :: 0 <= i < |events| && events[i].response.Some? ==> events[i].response.value.id != ""
    requires OneIdentity(events)
    ensures var id := Total(events).summary.responseID;
            && (id == "" <==> forall i :: 0 <= i < |events| ==> !Merges(events[i]))
            && forall i :: 0 <= i < |events| && Merges(events[i]) ==> events[i].response.value.id == id
  {
    if events != [] {
      var n := |events| - 1;
      assert events == events[..n] + [events[n]];
      FoldMore(events[..n], events[n]);
      assert OneIdentity(events[..n]);
      IdentityKept(events[..n]);
      EventIdentity(Total(events[..n]), events[n]);
      assert forall i :: 0 <= i < n ==> events[..n][i] == events[i];
    }
  }

  lemma EventIdentity(p: Progress, e: Event)
    requires p.ok && EventOk(e)
    ensures ApplyEvent(p, e, Accepting()).summary.responseID
            == if Merges(e) && e.response.value.id != "" then e.response.value.id else p.summary.responseID
  {
    if e.kind.CompletedEvent? {
      FallbackIdentity(p.(summary := Merge(p.summary, e.response.value)), e.response.value);
    }
  }

  lemma FallbackIdentity(p: Progress, r: Response)
    ensures TerminalFallback(p, r, Accepting()).summary.responseID == p.summary.responseID
  {
    CallsIdentity(TerminalText(p, MessageText(r.output), Accepting()), r.output);
  }

  lemma {:induction false} CallsIdentity(p: Progress, output: seq<Item>)
    ensures TerminalCalls(p, output, Accepting()).summary.responseID == p.summary.responseID
  {
    if output != [] { CallsIdentity(p, output[..|output| - 1]); }
  }

  /** One more event: what is unfinished then. */
  lemma UnfinishedMore(events: seq<Event>, e: Event, id: string)
    ensures Unfinished(events + [e], id) <==> Opens(e, id) || (Unfinished(events, id) && !Closes(e, id))
  {
    var all := events + [e];
    if Unfinished(events, id) && !Closes(e, id) {
      var i :| 0 <= i < |events| && Opens(events[i], id) && forall j :: i < j < |events| ==> !Closes(events[j], id);
      assert Opens(all[i], id) && forall j :: i < j < |all| ==> !Closes(all[j], id);
    }
    if Opens(e, id) {
      assert Opens(all[|events|], id);
    }
    if Unfinished(all, id) && !Opens(e, id) {
      var i :| 0 <= i < |all| && Opens(all[i], id) && forall j :: i < j < |all| ==> !Closes(all[j], id);
      assert Opens(events[i], id);
      assert forall j :: i < j < |events| ==> !Closes(events[j], id) by {
        forall j | i < j < |events| ensures !Closes(events[j], id) { assert !Closes(all[j], id); }
      }
      assert !Closes(all[|events|], id);
    }
  }

  lemma PendingStep(pending: set<string>, e: Event, id: string)
    requires EventOk(e)
    ensures id in PendingAfter(pending, e) <==> Opens(e, id) || (id in pending && !Closes(e, id))
  {
  }

  lemma IdentityStep(events: seq<Event>, e: Event)
    requires OneIdentity(events)
    ensures OneIdentity(events + [e]) <==>
              forall i :: 0 <= i < |events| && Merges(events[i]) && e.response.Some? ==> events[i].response.value.id == e.response.value.id
  {
    var all := events + [e];
    if OneIdentity(all) {
      forall i | 0 <= i < |events| && Merges(events[i]) && e.response.Some? ensures events[i].response.value.id == e.response.value.id {
        assert Merges(all[i]) && all[|events|] == e;
      }
    }
  }

  ghost predicate Tracks(st: Strict, events: seq<Event>) {
    && st.progress == Total(events) && (forall id :: id in st.pending <==> Unfinished(events, id))
    && !st.done
  }

  lemma EventsMore(decode: Decoder, payloads: seq<string>)
    requires payloads != [] && forall i :: 0 <= i < |payloads| ==> decode(payloads[i]).Some?
    ensures Events(decode, payloads) == Events(decode, payloads[..|payloads| - 1]) + [decode(payloads[|payloads| - 1]).value]
  {
  }

  /** What one event has to satisfy after the events before it. */
  ghost predicate Follows(events: seq<Event>, e: Event) {
    && EventOk(e) && OneIdentity(events + [e]) && Total(events + [e]).ok
    && ByteLength(Total(events + [e]).summary.text) <= MAX_OUTPUT_BYTES
    && (e.kind.CompletedEvent? ==> forall id :: !Unfinished(events + [e], id))
  }

  ghost predicate Sound(events: seq<Event>) {
    && (forall i :: 0 <= i < |events| ==> EventOk(events[i]))
    && (forall i :: 0 <= i < |events| && events[i].response.Some? ==> events[i].response.value.id != "")
    && OneIdentity(events) && Total(events).ok
  }

  lemma EventStep(st: Strict, events: seq<Event>, e: Event)
    requires Tracks(st, events) && Sound(events) && st.progress.ok && (e.response.Some? ==> e.response.value.id != "")
    ensures StepEvent(st, e).Some? <==> Follows(events, e)
    ensures StepEvent(st, e).Some? ==>
              Tracks(StepEvent(st, e).value, events + [e]) && Sound(events + [e])
              && StepEvent(st, e).value.terminal == e.kind.CompletedEvent? && StepEvent(st, e).value.count == st.count
  {
    hide ApplyEvent, Fold, Opens, Closes, Unfinished;
    IdentityKept(events);
    IdentityStep(events, e);
    FoldMore(events, e);
    SameIdentity(st, events, e);
    if EventOk(e) {
      forall id ensures id in PendingAfter(st.pending, e) <==> Unfinished(events + [e], id) {
        UnfinishedMore(events, e, id);
        PendingStep(st.pending, e, id);
      }
      assert PendingAfter(st.pending, e) == {} <==> forall id :: id !in PendingAfter(st.pending, e);
    }
  }

  lemma SameIdentity(st: Strict, events: seq<Event>, e: Event)
    requires st.progress == Total(events) && OneIdentity(events)
    requires var id := Total(events).summary.responseID;
             && (id == "" <==> forall i :: 0 <= i < |events| ==> !Merges(events[i]))
             && forall i :: 0 <= i < |events| && Merges(events[i]) ==> events[i].response.value.id == id
    ensures e.response.Some? && st.progress.summary.responseID != "" && st.progress.summary.responseID != e.response.value.id
            <==> !OneIdentity(events + [e])
  {
    hide Fold;
    IdentityStep(events, e);
    if st.progress.summary.responseID != "" {
      var i :| 0 <= i < |events| && Merges(events[i]);
    }
  }

  /** Before a completed event, the machine is where the events put it, exactly for beginnings. */
  lemma {:induction false} BeginningExact(decode: Decoder, payloads: seq<string>)
    requires DecoderOk(decode) && |payloads| <= MAX_EVENTS
    ensures var r := Steps(decode, payloads);
            (r.Some? && !r.value.terminal) <==> Beginning(decode, payloads)
    ensures Beginning(decode, payloads) ==>
              Tracks(Steps(decode, payloads).value, Events(decode, payloads)) && Sound(Events(decode, payloads))
  {
    if payloads == [] {
      assert Events(decode, []) == [];
    } else {
      var n := |payloads| - 1;
      BeginningExact(decode, payloads[..n]);
      BeginningStep(decode, payloads);
    }
  }

  lemma BeginningStep(decode: Decoder, payloads: seq<string>)
    requires DecoderOk(decode) && payloads != [] && |payloads| <= MAX_EVENTS
    requires var before := payloads[..|payloads| - 1];
             && ((Steps(decode, before).Some? && !Steps(decode, before).value.terminal) <==> Beginning(decode, before))
             && (Beginning(decode, before) ==> Tracks(Steps(decode, before).value, Events(decode, before)) && Sound(Events(decode, before)))
    ensures var r := Steps(decode, payloads);
            (r.Some? && !r.value.terminal) <==> Beginning(decode, payloads)
    ensures Beginning(decode, payloads) ==>
              Tracks(Steps(decode, payloads).value, Events(decode, payloads)) && Sound(Events(decode, payloads))
  {
    hide Sound, Follows, Total, StepEvent, EventOk, OneIdentity, Unfinished;
    var n := |payloads| - 1;
    var last := payloads[n];
    BeginningParts(decode, payloads);
    if Beginning(decode, payloads[..n]) && !IsDone(last) && decode(last).Some? {
      EventStep(Steps(decode, payloads[..n]).value.(count := n + 1), Events(decode, payloads[..n]), decode(last).value);
    }
  }

  lemma BeginningParts(decode: Decoder, payloads: seq<string>)
    requires payloads != []
    ensures var n := |payloads| - 1;
            Beginning(decode, payloads) <==>
              && Beginning(decode, payloads[..n]) && !IsDone(payloads[n]) && decode(payloads[n]).Some?
              && Follows(Events(decode, payloads[..n]), decode(payloads[n]).value) && !decode(payloads[n]).value.kind.CompletedEvent?
    ensures Beginning(decode, payloads) ==>
              Events(decode, payloads) == Events(decode, payloads[..|payloads| - 1]) + [decode(payloads[|payloads| - 1]).value]
  {
    hide Beginning, Follows;
    var n := |payloads| - 1;
    if Beginning(decode, payloads) { BeginningPrefix(decode, payloads, n); }
    if Beginning(decode, payloads[..n]) && !IsDone(payloads[n]) && decode(payloads[n]).Some? {
      BeginningLonger(decode, payloads, n);
    }
  }

  lemma BeginningPrefix(decode: Decoder, payloads: seq<string>, n: nat)
    requires |payloads| == n + 1 && Beginning(decode, payloads)
    ensures !IsDone(payloads[n]) && decode(payloads[n]).Some? && !decode(payloads[n]).value.kind.CompletedEvent?
    ensures Beginning(decode, payloads[..n]) && Events(decode, payloads) == Events(decode, payloads[..n]) + [decode(payloads[n]).value]
    ensures Follows(Events(decode, payloads[..n]), decode(payloads[n]).value)
  {
    hide Fold, EventOk;
    EventsMore(decode, payloads);
    var events, e := Events(decode, payloads[..n]), decode(payloads[n]).value;
    FoldMore(events, e);
    PrefixIdentity(events, e);
    if Total(events).ok { TextGrows(Total(events), e); }
    forall i | 0 <= i < n ensures EventOk(events[i]) && !events[i].kind.CompletedEvent? {
      assert Events(decode, payloads)[i] == events[i];
    }
    assert Events(decode, payloads)[n] == e;
  }

  lemma BeginningLonger(decode: Decoder, payloads: seq<string>, n: nat)
    requires |payloads| == n + 1 && Beginning(decode, payloads[..n]) && !IsDone(payloads[n]) && decode(payloads[n]).Some?
    ensures Follows(Events(decode, payloads[..n]), decode(payloads[n]).value) && !decode(payloads[n]).value.kind.CompletedEvent?
            ==> Beginning(decode, payloads)
  {
    hide Fold, EventOk, OneIdentity;
    forall i | 0 <= i < |payloads| ensures !IsDone(payloads[i]) && decode(payloads[i]).Some? {
      if i < n { assert payloads[i] == payloads[..n][i]; }
    }
    EventsMore(decode, payloads);
    var events := Events(decode, payloads[..n]);
    assert forall i :: 0 <= i < n ==> Events(decode, payloads)[i] == events[i];
  }

  lemma PrefixIdentity(events: seq<Event>, e: Event)
    ensures OneIdentity(events + [e]) ==> OneIdentity(events)
  {
    var all := events + [e];
    forall i, j | OneIdentity(all) && 0 <= i < j < |events| && Merges(events[i]) && events[j].response.Some?
      ensures events[i].response.value.id == events[j].response.value.id
    {
      assert Merges(all[i]) && all[j].response.Some?;
    }
  }

  lemma {:induction false} LongerText(a: string, b: string)
    requires a <= b
    ensures ByteLength(a) <= ByteLength(b)
  {
    if a != [] { LongerText(a[1..], b[1..]); }
  }

  /** Events only ever add to the text. */
  lemma TextGrows(p: Progress, e: Event)
    requires p.ok
    ensures ByteLength(p.summary.text) <= ByteLength(ApplyEvent(p, e, Accepting()).summary.text)
  {
    hide ByteLength;
    if e.kind.CompletedEvent? && e.response.Some? {
      var p1 := p.(summary := Merge(p.summary, e.response.value));
      CallsText(TerminalText(p1, MessageText(e.response.value.output), Accepting()), e.response.value.output);
    }
    LongerText(p.summary.text, ApplyEvent(p, e, Accepting()).summary.text);
  }

  lemma {:induction false} CallsText(p: Progress, output: seq<Item>)
    ensures TerminalCalls(p, output, Accepting()).summary.text == p.summary.text
  {
    if output != [] { CallsText(p, output[..|output| - 1]); }
  }

  // ---------------------------------------------------------------------------
  // Acceptance
  // ---------------------------------------------------------------------------

  lemma CompleteParts(decode: Decoder, payloads: seq<string>)
    requires payloads != []
    ensures var n := |payloads| - 1;
            Complete(decode, payloads) <==>
              && Beginning(decode, payloads[..n]) && !IsDone(payloads[n]) && decode(payloads[n]).Some?
              && Follows(Events(decode, payloads[..n]), decode(payloads[n]).value) && decode(payloads[n]).value.kind.CompletedEvent?
  {
    hide EventOk, OneIdentity, Unfinished, Total, Beginning;
  }

  /** The last step of a stream that comes to its end. */
  lemma TerminalStep(decode: Decoder, payloads: seq<string>)
    requires |payloads| <= MAX_EVENTS && payloads != []
    ensures var r, n := Steps(decode, payloads), |payloads| - 1;
            var q := Steps(decode, payloads[..n]);
            && (r.Some? && r.value.terminal && !r.value.done <==>
                  && q.Some? && !q.value.terminal && !q.value.done && !IsDone(payloads[n]) && decode(payloads[n]).Some?
                  && StepEvent(q.value.(count := n + 1), decode(payloads[n]).value).Some?
                  && decode(payloads[n]).value.kind.CompletedEvent?)
            && (r.Some? && r.value.terminal && !r.value.done ==> r == StepEvent(q.value.(count := n + 1), decode(payloads[n]).value))
  {
    hide IsDone, ApplyEvent, EventOk, PendingAfter;
  }

  /** The machine comes to its end exactly on whole streams. */
  lemma TerminalExact(decode: Decoder, payloads: seq<string>)
    requires DecoderOk(decode) && |payloads| <= MAX_EVENTS && payloads != []
    ensures var r := Steps(decode, payloads);
            var n := |payloads| - 1;
            && (r.Some? && r.value.terminal && !r.value.done <==> Complete(decode, payloads))
            && (Complete(decode, payloads) ==>
                  r.value.progress == Total(Events(decode, payloads[..n]) + [decode(payloads[n]).value]))
  {
    hide Tracks, Sound, Follows, StepEvent, Complete, Total, IsDone, Events, Steps, EventOk, OneIdentity;
    var n := |payloads| - 1;
    BeginningExact(decode, payloads[..n]);
    CompleteParts(decode, payloads);
    TerminalStep(decode, payloads);
    if Beginning(decode, payloads[..n]) && !IsDone(payloads[n]) && decode(payloads[n]).Some? {
      var st := Steps(decode, payloads[..n]).value;
      CountedTracks(st, Events(decode, payloads[..n]));
      EventStep(st.(count := n + 1), Events(decode, payloads[..n]), decode(payloads[n]).value);
      if StepEvent(st.(count := n + 1), decode(payloads[n]).value).Some? {
        TracksProgress(StepEvent(st.(count := n + 1), decode(payloads[n]).value).value,
                       Events(decode, payloads[..n]) + [decode(payloads[n]).value]);
      }
    }
  }

  lemma CountedTracks(st: Strict, events: seq<Event>)
    requires Tracks(st, events)
    ensures forall c: nat :: Tracks(st.(count := c), events)
    ensures !st.done
  {
  }

  lemma TracksProgress(st: Strict, events: seq<Event>)
    requires Tracks(st, events)
    ensures st.progress == Total(events) && !st.done
  {
  }

  predicate SummaryValid(s: Summary) {
    && s.status == "completed" && s.responseID != "" && IdentifierValid(s.responseID)
    && !s.hasError && !s.hasIncomplete && ByteLength(s.text) <= MAX_OUTPUT_BYTES && |s.calls| <= MAX_CALLS
  }

  /** Whole streams, with nothing after them but one [DONE]. */
  ghost predicate Accepted(decode: Decoder, payloads: seq<string>, events: seq<Event>) {
    && |payloads| <= MAX_EVENTS
    && exists n: nat :: WholeAt(decode, payloads, n, events)
  }

  ghost predicate WholeAt(decode: Decoder, payloads: seq<string>, n: nat, events: seq<Event>) {
    && 0 < n <= |payloads| && (forall i :: 0 <= i < n ==> decode(payloads[i]).Some?)
    && Complete(decode, payloads[..n]) && events == Events(decode, payloads[..n])
    && (n == |payloads| || (n + 1 == |payloads| && IsDone(payloads[n])))
  }

  lemma CompleteReadable(decode: Decoder, payloads: seq<string>)
    requires Complete(decode, payloads)
    ensures forall i :: 0 <= i < |payloads| ==> !IsDone(payloads[i]) && decode(payloads[i]).Some?
    ensures Events(decode, payloads) == Events(decode, payloads[..|payloads| - 1]) + [decode(payloads[|payloads| - 1]).value]
  {
    hide Fold, Total, ApplyEvent, EventOk, IsDone;
    var n := |payloads| - 1;
    forall i | 0 <= i < |payloads| ensures !IsDone(payloads[i]) && decode(payloads[i]).Some? {
      if i < n { assert payloads[i] == payloads[..n][i]; }
    }
  }

  /** An accepted list is a whole stream, or one followed by [DONE]. */
  lemma AcceptedCases(decode: Decoder, payloads: seq<string>, events: seq<Event>)
    requires Accepted(decode, payloads, events)
    ensures payloads != []
    ensures var n := |payloads| - 1;
            || (Complete(decode, payloads) && WholeAt(decode, payloads, |payloads|, events))
            || (n > 0 && Complete(decode, payloads[..n]) && WholeAt(decode, payloads, n, events) && IsDone(payloads[n]))
  {
    hide Complete, Events, IsDone;
    var n: nat :| WholeAt(decode, payloads, n, events);
    assert payloads[..|payloads|] == payloads;
  }

  lemma WholeEvents(decode: Decoder, payloads: seq<string>, n: nat, events: seq<Event>)
    requires WholeAt(decode, payloads, n, events)
    ensures events == Events(decode, payloads[..n - 1]) + [decode(payloads[n - 1]).value]
  {
    CompleteReadable(decode, payloads[..n]);
    assert payloads[..n][..n - 1] == payloads[..n - 1];
  }

  lemma WholeExists(decode: Decoder, payloads: seq<string>, n: nat)
    requires 0 < n <= |payloads| <= MAX_EVENTS && Complete(decode, payloads[..n])
    requires n == |payloads| || (n + 1 == |payloads| && IsDone(payloads[n]))
    ensures exists events :: Accepted(decode, payloads, events)
  {
    hide Complete, IsDone;
    CompleteReadable(decode, payloads[..n]);
    assert WholeAt(decode, payloads, n, Events(decode, payloads[..n]));
    assert Accepted(decode, payloads, Events(decode, payloads[..n]));
  }

  lemma DoneStep(decode: Decoder, payloads: seq<string>)
    requires payloads != [] && |payloads| <= MAX_EVENTS
    ensures var r, q := Steps(decode, payloads), Steps(decode, payloads[..|payloads| - 1]);
            && (r.Some? && r.value.terminal && r.value.done
                <==> IsDone(payloads[|payloads| - 1]) && q.Some? && q.value.terminal && !q.value.done)
            && (r.Some? && r.value.done ==> r.value.progress == q.value.progress)
  {
    hide IsDone, ApplyEvent, EventOk, PendingAfter;
  }

  lemma AcceptedProgress(decode: Decoder, payloads: seq<string>, events: seq<Event>)
    requires DecoderOk(decode) && Accepted(decode, payloads, events)
    ensures Steps(decode, payloads).Some? && Steps(decode, payloads).value.terminal
    ensures Steps(decode, payloads).value.progress == Total(events)
  {
    hide Complete, Total, Steps, Events, IsDone, WholeAt;
    AcceptedCases(decode, payloads, events);
    var n := |payloads| - 1;
    TerminalExact(decode, payloads);
    DoneStep(decode, payloads);
    if Complete(decode, payloads) && WholeAt(decode, payloads, |payloads|, events) {
      WholeEvents(decode, payloads, |payloads|, events);
    } else {
      TerminalExact(decode, payloads[..n]);
      WholeEvents(decode, payloads, n, events);
      assert payloads[..n][..n - 1] == payloads[..n - 1];
    }
  }

  /** The machine's acceptance, in both directions, and its summary. */
  lemma AcceptedExact(decode: Decoder, payloads: seq<string>)
    requires DecoderOk(decode)
    ensures var r := Steps(decode, payloads);
            && (r.Some? && r.value.terminal <==> exists events :: Accepted(decode, payloads, events))
            && forall events :: Accepted(decode, payloads, events) ==> r.value.progress == Total(events)
  {
    hide Complete, Total, Step, Accepted, IsDone;
    forall events | Accepted(decode, payloads, events)
      ensures Steps(decode, payloads).Some? && Steps(decode, payloads).value.terminal
              && Steps(decode, payloads).value.progress == Total(events)
    {
      AcceptedProgress(decode, payloads, events);
    }
    if Steps(decode, payloads).Some? && Steps(decode, payloads).value.terminal {
      TerminalAccepted(decode, payloads);
    }
  }

  lemma TerminalAccepted(decode: Decoder, payloads: seq<string>)
    requires DecoderOk(decode) && Steps(decode, payloads).Some? && Steps(decode, payloads).value.terminal
    ensures exists events :: Accepted(decode, payloads, events)
  {
    hide Complete, Accepted, IsDone, Step;
    var n := |payloads| - 1;
    assert payloads[..|payloads|] == payloads;
    TerminalExact(decode, payloads);
    DoneStep(decode, payloads);
    if Steps(decode, payloads).value.done {
      if n > 0 { TerminalExact(decode, payloads[..n]); }
      WholeExists(decode, payloads, n);
    } else {
      WholeExists(decode, payloads, n + 1);
    }
  }

  // ---------------------------------------------------------------------------
  // The parser
  // ---------------------------------------------------------------------------

  class StrictParser {
    const decode: Decoder
    var progress: Progress
    var pending: set<string>
    var terminal: bool
    var done: bool
    var count: nat

    function Model(): Strict
      reads this
    {
      Strict(progress, pending, terminal, done, count)
    }

    constructor (decode: Decoder)
      ensures this.decode == decode && Model() == INITIAL
    {
      this.decode := decode;
      progress, pending, terminal, done, count := START, {}, false, false, 0;
    }

    method Unpend(output: seq<Item>)
      modifies this`pending
      ensures pending == old(pending) - CallIDs(output)
    {
      for i := 0 to |output|
        invariant pending == old(pending) - CallIDs(output[..i])
      {
        CallIDsMore(output, i);
        if output[i].kind.FunctionCall? {
          pending := pending - {output[i].id};
        }
      }
      assert output[..|output|] == output;
    }

    method ApplyOne(e: Event) returns (ok: bool)
      requires progress.ok && !terminal && !done
      modifies this
      ensures ok <==> StepEvent(old(Model()), e).Some?
      ensures ok ==> Model() == StepEvent(old(Model()), e).value
    {
      if e.response.Some? && progress.summary.responseID != "" && progress.summary.responseID != e.response.value.id {
        return false;
      }
      if !EventOk(e) {
        return false;
      }
      match e.kind {
        case ItemAdded =>
          if e.item.value.kind.FunctionCall? { pending := pending + {e.item.value.id}; }
        case ItemDone =>
          if e.item.value.kind.FunctionCall? { pending := pending - {e.item.value.id}; }
        case ArgumentsDelta | ArgumentsDone => pending := pending + {e.itemID};
        case CompletedEvent =>
          Unpend(e.response.value.output);
          if pending != {} {
            return false;
          }
          terminal := true;
        case _ =>
      }
      progress := ApplyEvent(progress, e, Accepting());
      ok := progress.ok && ByteLength(progress.summary.text) <= MAX_OUTPUT_BYTES;
    }

    method ApplyPayload(payload: string) returns (ok: bool)
      requires progress.ok
      modifies this
      ensures ok <==> Step(decode, old(Model()), payload).Some?
      ensures ok ==> Model() == Step(decode, old(Model()), payload).value && progress.ok
    {
      count := count + 1;
      if count > MAX_EVENTS || done {
        return false;
      }
      if IsDone(payload) {
        if !terminal {
          return false;
        }
        done := true;
        return true;
      }
      if terminal {
        return false;
      }
      var event := decode(payload);
      if event.None? {
        return false;
      }
      ok := ApplyOne(event.value);
    }
  }

  lemma CallIDsMore(output: seq<Item>, i: nat)
    requires i < |output|
    ensures CallIDs(output[..i + 1]) == CallIDs(output[..i]) + (if output[i].kind.FunctionCall? then {output[i].id} else {})
  {
    var a, b := output[..i + 1], output[..i];
    forall id | id in CallIDs(b) ensures id in CallIDs(a) {
      var j :| 0 <= j < |b| && b[j].kind.FunctionCall? && b[j].id == id;
      assert a[j] == b[j];
    }
    if output[i].kind.FunctionCall? { assert a[i].id in CallIDs(a); }
    forall id | id in CallIDs(a) ensures id in CallIDs(b) + (if output[i].kind.FunctionCall? then {output[i].id} else {}) {
      var j :| 0 <= j < |a| && a[j].kind.FunctionCall? && a[j].id == id;
      if j < i { assert b[j] == a[j]; }
    }
  }

  /** Reading all payloads, one after the other, as the lines complete them. */
  ghost predicate Reading(p: StrictParser, f: Frames)
    reads p
  {
    Steps(p.decode, f.payloads) == Some(p.Model())
  }

  /**
   The strict parser: it accepts exactly the streams that are whole and coherent, and its summary
   is what their events add up to.
   */
  method ParseStrict(lines: seq<string>, decode: Decoder) returns (r: Option<Summary>)
    requires DecoderOk(decode)
    ensures r.Some? <==>
              && FrameLines(lines).Some? && FrameLines(lines).value.data == ""
              && exists events :: Accepted(decode, FrameLines(lines).value.payloads, events) && SummaryValid(Total(events).summary)
    ensures r.Some? ==> forall events :: Accepted(decode, FrameLines(lines).value.payloads, events) ==> r.value == Total(events).summary
  {
    hide Accepted, SummaryValid, Step, Total;
    var parser := new StrictParser(decode);
    var data := "";
    ghost var f := Frames([], "");
    for i := 0 to |lines|
      invariant FrameLines(lines[..i]) == Some(f) && f.data == data
      invariant Reading(parser, f) && parser.decode == decode && parser.progress.ok
    {
      var line := lines[i];
      assert lines[..i + 1][..i] == lines[..i];
      if line == "" {
        if data != "" {
          var ok := parser.ApplyPayload(data);
          assert (f.payloads + [data])[..|f.payloads|] == f.payloads;
          if !ok {
            RefusedPayload(decode, lines, i + 1, f.payloads + [data]);
            return None;
          }
          f := Frames(f.payloads + [data], "");
        }
        data := "";
      } else if DATA <= line {
        var part := DataPart(line);
        if |data| + |part| + 1 > MAX_EVENT_BYTES {
          RefusedLine(lines, i + 1);
          return None;
        }
        data := Joined(data, part);
        f := f.(data := data);
      } else if !Ignored(line) {
        RefusedLine(lines, i + 1);
        return None;
      }
    }
    assert lines[..|lines|] == lines;
    AcceptedExact(decode, f.payloads);
    if data != "" || !parser.terminal || !SummaryValid(parser.progress.summary) {
      return None;
    }
    return Some(parser.progress.summary);
  }

  lemma {:induction false} RefusedLine(lines: seq<string>, n: nat)
    requires n <= |lines| && FrameLines(lines[..n]).None?
    ensures FrameLines(lines).None?
    decreases |lines|
  {
    if n < |lines| {
      assert lines[..|lines| - 1][..n] == lines[..n];
      RefusedLine(lines[..|lines| - 1], n);
    } else {
      assert lines[..n] == lines;
    }
  }

  /** Payloads only ever accumulate, so a refused one stays refused. */
  lemma {:induction false} RefusedPayload(decode: Decoder, lines: seq<string>, n: nat, payloads: seq<string>)
    requires DecoderOk(decode) && n <= |lines| && Steps(decode, payloads).None?
    requires FrameLines(lines[..n]).Some? && payloads <= FrameLines(lines[..n]).value.payloads
    ensures FrameLines(lines).Some? ==> forall events :: !Accepted(decode, FrameLines(lines).value.payloads, events)
    decreases |lines|
  {
    hide Accepted;
    if FrameLines(lines).Some? {
      PayloadsGrow(lines, n);
      StoppedSteps(decode, payloads, FrameLines(lines).value.payloads);
      AcceptedExact(decode, FrameLines(lines).value.payloads);
    }
  }

  lemma {:induction false} PayloadsGrow(lines: seq<string>, n: nat)
    requires n <= |lines| && FrameLines(lines[..n]).Some? && FrameLines(lines).Some?
    ensures FrameLines(lines[..n]).value.payloads <= FrameLines(lines).value.payloads
    decreases |lines|
  {
    if n < |lines| {
      assert lines[..|lines| - 1][..n] == lines[..n];
      PayloadsGrow(lines[..|lines| - 1], n);
    } else {
      assert lines[..n] == lines;
    }
  }

  lemma {:induction false} StoppedSteps(decode: Decoder, a: seq<string>, b: seq<string>)
    requires a <= b && Steps(decode, a).None?
    ensures Steps(decode, b).None?
    decreases |b|
  {
    if a != b {
      assert a <= b[..|b| - 1];
      StoppedSteps(decode, a, b[..|b| - 1]);
    }
  }
}
