/** From the provider's answers to the result of the turn: no text is lost, added or moved on the way. */
module AdapterEndToEnd {
  import opened AdapterTurn
  import opened AdapterLog
  import opened AdapterInvariant
  import opened AdapterTheorems
  import Stream = ResponseStream

  // ---------------------------------------------------------------------------
  // What the callbacks of the present provider call were given
  // ---------------------------------------------------------------------------

  /** The event is a piece of text that the provider call's callback takes in. */
  predicate Takes(s: System, e: Event) {
    e.TextDelta? && e.n == 0 && !s.deleted && InFlight(s.runners) && !s.runners[0].broken
  }

  predicate Starts(s: System, e: Event) {
    e.RunnerStarts? && e.n == 0 && !s.deleted && |s.runners| == 1 && s.runners[0].Scheduled?
  }

  /** The pieces of text the latest provider call's callback was given, in order. */
  ghost function Heard(cfg: Config, s: System, events: seq<Event>): seq<string> {
    if events == [] then []
    else
      var last := |events| - 1;
      var u := Run(cfg, s, events[..last]);
      if Starts(u, events[last]) then []
      else Heard(cfg, s, events[..last]) + (if Takes(u, events[last]) then [events[last].delta] else [])
  }

  predicate Sound(runners: seq<Runner>) {
    InFlight(runners) && !runners[0].broken
  }

  lemma SaidStep(cfg: Config, s: System, e: Event)
    requires |s.runners| <= 1 && Sound(Apply(cfg, s, e).runners)
    ensures var t := Apply(cfg, s, e);
            if Starts(s, e) then t.runners[0].said == ""
            else Sound(s.runners) && t.runners[0].said == s.runners[0].said + (if Takes(s, e) then e.delta else "")
  {
    hide OnText, OnCreated, OnCall, ProviderFailed, ProviderDone, FlushTimer, DeadlinePassed, Cancelled, Continue;
    OnlyOne(cfg, s, e);
  }

  /** A provider call whose callbacks all went well has taken in exactly what they were given. */
  lemma {:induction false} SaidIsHeard(cfg: Config, session: string, previous: string, events: seq<Event>)
    requires SmallFit(cfg) && Sound(Run(cfg, Initial(session, previous), events).runners)
    ensures Run(cfg, Initial(session, previous), events).runners[0].said == Concat(Heard(cfg, Initial(session, previous), events))
  {
    hide Apply, Inv;
    var s := Initial(session, previous);
    if events != [] {
      var last := |events| - 1;
      var u := Run(cfg, s, events[..last]);
      Reached(cfg, session, previous, events[..last]);
      SingleRunner(cfg, u);
      SaidStep(cfg, u, events[last]);
      if !Starts(u, events[last]) {
        SaidIsHeard(cfg, session, previous, events[..last]);
        if Takes(u, events[last]) {
          ConcatMore(Heard(cfg, s, events[..last]), events[last].delta);
        } else {
          assert Heard(cfg, s, events) == Heard(cfg, s, events[..last]);
        }
      }
    }
  }

  lemma SingleRunner(cfg: Config, s: System)
    requires Inv(cfg, s)
    ensures |s.runners| <= 1
  {
  }

  // ---------------------------------------------------------------------------
  // Answers of the provider
  // ---------------------------------------------------------------------------

  // What the provider answered with, and which callbacks were refused.
  datatype Answer =
    | Streaming(stream: seq<Stream.Event>, refuses: Stream.Callback -> bool)
    | Document(response: Stream.Response, completed: bool, refuses: Stream.Callback -> bool)

  /** What an answer adds up to, with the callbacks made for it. */
  function Folded(a: Answer): Stream.Progress {
    match a
    case Streaming(stream, refuses) => Stream.Fold(Stream.Progress(Stream.NO_SUMMARY, [], true), stream, refuses)
    case Document(response, completed, refuses) => Stream.CompleteResponse(response, completed, refuses)
  }

  /** The pieces of text among the callbacks, in order. */
  function Pieces(made: seq<Stream.Callback>): seq<string> {
    if made == [] then []
    else Pieces(made[..|made| - 1]) + (if made[|made| - 1].OnText? then [made[|made| - 1].delta] else [])
  }

  lemma {:induction false} PiecesTold(made: seq<Stream.Callback>)
    ensures Concat(Pieces(made)) == Stream.Told(made)
  {
    if made != [] {
      var last := |made| - 1;
      PiecesTold(made[..last]);
      if made[last].OnText? {
        ConcatMore(Pieces(made[..last]), made[last].delta);
      } else {
        assert Pieces(made) == Pieces(made[..last]);
      }
    }
  }

  /** The answer went well, `pieces` were given to its text callbacks, and `text` is its summary. */
  ghost predicate Drives(a: Answer, pieces: seq<string>, text: string) {
    Folded(a).ok && Pieces(Folded(a).made) == pieces && Folded(a).summary.text == text
  }

  lemma DrivenWhole(a: Answer, pieces: seq<string>, text: string)
    requires Drives(a, pieces, text)
    ensures Concat(pieces) == text
  {
    match a {
      case Streaming(stream, refuses) => Stream.StreamConserved(stream, refuses);
      case Document(response, completed, refuses) => Stream.DocumentConserved(response, completed, refuses);
    }
    PiecesTold(Folded(a).made);
  }

  /** What a call reports is what its callbacks took in: the turn never waits for an end that cannot come. */
  lemma EndMatches(cfg: Config, session: string, previous: string, events: seq<Event>, a: Answer, text: string)
    requires SmallFit(cfg) && Sound(Run(cfg, Initial(session, previous), events).runners)
    requires Drives(a, Heard(cfg, Initial(session, previous), events), text)
    ensures Run(cfg, Initial(session, previous), events).runners[0].said == text
  {
    hide Apply, Drives;
    SaidIsHeard(cfg, session, previous, events);
    DrivenWhole(a, Heard(cfg, Initial(session, previous), events), text);
  }

  // ---------------------------------------------------------------------------
  // Whole turns
  // ---------------------------------------------------------------------------

  /** The provider call comes to a good end, whatever text it reports. */
  predicate Ends(s: System, e: Event) {
    && e.RunnerEnds? && e.n == 0 && !s.deleted && !s.turn.completed && Sound(s.runners)
    && var r := Identified(s.runners[0], e.responseID, e.session);
       r.Some? && (e.status.CompletedStatus? ==> Advances(r.value))
  }

  /** For each provider call that came to a good end, in order, the pieces of text its callback was given. */
  ghost function RoundsHeard(cfg: Config, s: System, events: seq<Event>): seq<seq<string>> {
    if events == [] then []
    else
      var last := |events| - 1;
      RoundsHeard(cfg, s, events[..last])
      + (if Ends(Run(cfg, s, events[..last]), events[last]) then [Heard(cfg, s, events[..last])] else [])
  }

  /**
   One answer for each provider call that came to a good end, in order: it drove the callbacks of that
   call, and the call reports its summary.
   */
  ghost predicate FromAnswers(cfg: Config, s: System, events: seq<Event>, answers: seq<Answer>) {
    if events == [] then answers == []
    else
      var last := |events| - 1;
      if Ends(Run(cfg, s, events[..last]), events[last]) then
        && answers != []
        && Drives(answers[|answers| - 1], Heard(cfg, s, events[..last]), events[last].text)
        && FromAnswers(cfg, s, events[..last], answers[..|answers| - 1])
      else FromAnswers(cfg, s, events[..last], answers)
  }

  /** The texts of the summaries, in order. */
  function SummaryTexts(answers: seq<Answer>): seq<string> {
    seq(|answers|, i requires 0 <= i < |answers| => Folded(answers[i]).summary.text)
  }

  /** Round by round: what the answer's callbacks were told, and what its summary is, are what the turn took. */
  ghost predicate Answers(answers: seq<Answer>, heard: seq<seq<string>>, rounds: seq<string>) {
    && |answers| == |heard| == |rounds|
    && forall i :: 0 <= i < |answers| ==> Drives(answers[i], heard[i], rounds[i])
  }

  lemma AnswersMore(answers: seq<Answer>, heard: seq<seq<string>>, rounds: seq<string>, pieces: seq<string>, text: string)
    requires answers != [] && Answers(answers[..|answers| - 1], heard, rounds) && Drives(answers[|answers| - 1], pieces, text)
    ensures Answers(answers, heard + [pieces], rounds + [text])
  {
  }

  lemma RoundStep(cfg: Config, s: System, e: Event)
    requires |s.runners| <= 1 && (Ends(s, e) ==> e.text == s.runners[0].said)
    ensures Apply(cfg, s, e).rounds == if Ends(s, e) then s.rounds + [e.text] else s.rounds
  {
    hide OnText, OnCreated, OnCall, ProviderFailed, ProviderDone, FlushTimer, DeadlinePassed, Cancelled, Continue;
  }

  lemma {:induction false} RoundsAnswered(cfg: Config, session: string, previous: string, events: seq<Event>, answers: seq<Answer>)
    requires SmallFit(cfg) && FromAnswers(cfg, Initial(session, previous), events, answers)
    ensures Answers(answers, RoundsHeard(cfg, Initial(session, previous), events), Run(cfg, Initial(session, previous), events).rounds)
  {
    hide Apply, Inv, Drives, Heard;
    var s := Initial(session, previous);
    if events != [] {
      var last := |events| - 1;
      var u := Run(cfg, s, events[..last]);
      Reached(cfg, session, previous, events[..last]);
      SingleRunner(cfg, u);
      if Ends(u, events[last]) {
        RoundsAnswered(cfg, session, previous, events[..last], answers[..|answers| - 1]);
        EndMatches(cfg, session, previous, events[..last], answers[|answers| - 1], events[last].text);
        AnswersMore(answers, RoundsHeard(cfg, s, events[..last]), u.rounds, Heard(cfg, s, events[..last]), events[last].text);
      } else {
        RoundsAnswered(cfg, session, previous, events[..last], answers);
        assert RoundsHeard(cfg, s, events) == RoundsHeard(cfg, s, events[..last]);
      }
      RoundStep(cfg, u, events[last]);
    }
  }

  /**
   Over every turn whose callbacks are driven by `answers`, one for each provider call that came to a
   good end: there are as many rounds as answers, each round heard exactly the text callbacks of its
   answer and took in exactly its summary, and a completed turn reports the summaries in a row, which is
   what its output frames said.
   */
  lemma TextEndToEnd(cfg: Config, session: string, previous: string, events: seq<Event>, answers: seq<Answer>)
    requires SmallFit(cfg) && FromAnswers(cfg, Initial(session, previous), events, answers)
    ensures var s := Run(cfg, Initial(session, previous), events);
            var heard := RoundsHeard(cfg, Initial(session, previous), events);
            && |answers| == |s.rounds| == |heard|
            && (forall i :: 0 <= i < |answers| ==>
                  && Folded(answers[i]).ok
                  && s.rounds[i] == Folded(answers[i]).summary.text
                  && heard[i] == Pieces(Folded(answers[i]).made))
            && var frames := s.turn.log.frames;
               s.turn.completed && frames != [] && frames[|frames| - 1].kind.TurnCompleted? ==>
                 frames[|frames| - 1].text == Spoken(frames) == Concat(SummaryTexts(answers))
  {
    hide Apply, Inv, Folded;
    var s := Run(cfg, Initial(session, previous), events);
    RoundsAnswered(cfg, session, previous, events, answers);
    assert s.rounds == SummaryTexts(answers);
    var frames := s.turn.log.frames;
    if s.turn.completed && frames != [] && frames[|frames| - 1].kind.TurnCompleted? {
      TextConserved(cfg, session, previous, events);
    }
  }
}
