/** The frame log of a turn: its grammar, its length, and the text in it. */
module AdapterLog {
  import opened AdapterTurn

  predicate IsTerminal(kind: FrameKind) {
    kind.TurnCompleted? || kind.TurnFailed? || kind.TurnCancelled?
  }

  predicate Payload(f: Frame) {
    (f.kind.TurnCompleted? ==> f.hasCompleted) && (f.kind.TurnFailed? ==> f.hasFailed)
  }

  /** Numbered from one, with the identity of the turn, started first and once, ended last and once. */
  ghost predicate Grammar(cfg: Config, frames: seq<Frame>, done: bool) {
    && (done ==> frames != [])
    && forall i :: 0 <= i < |frames| ==>
         && frames[i].seqNo == i + 1 && frames[i].identity == cfg.identity && Payload(frames[i])
         && !frames[i].kind.OtherKind? && !frames[i].kind.UnknownKind?
         && (frames[i].kind.TurnStarted? <==> i == 0)
         && (IsTerminal(frames[i].kind) <==> done && i == |frames| - 1)
  }

  /** The length stays below the limit until the last frame. */
  ghost predicate Short(cfg: Config, frames: seq<Frame>, done: bool) {
    cfg.maxEvents > 0 ==>
      if done then |frames| <= cfg.maxEvents || |frames| <= 2
      else frames == [] || |frames| < cfg.maxEvents
  }

  ghost predicate LogInv(cfg: Config, log: Log, done: bool) {
    && Grammar(cfg, log.frames, done) && Short(cfg, log.frames, done)
    && (log.started <==> log.frames != [])
    && (!log.started ==> log.pendingOutput == "")
  }

  /** The frames that announce a start and a bare failure are never too large. */
  ghost predicate SmallFit(cfg: Config) {
    forall log: Log :: cfg.fits(Numbered(cfg, log, Plain(TurnStarted, "", ""))) && cfg.fits(Numbered(cfg, log, MINIMAL_FAILURE))
  }

  /** The text of all output frames. */
  function Spoken(frames: seq<Frame>): string {
    if frames == [] then ""
    else Spoken(frames[..|frames| - 1]) + (if frames[|frames| - 1].kind.RuntimeOutput? then frames[|frames| - 1].text else "")
  }

  lemma SpokenMore(frames: seq<Frame>, f: Frame)
    ensures Spoken(frames + [f]) == Spoken(frames) + (if f.kind.RuntimeOutput? then f.text else "")
  {
    assert (frames + [f])[..|frames|] == frames;
  }

  lemma GrammarMore(cfg: Config, frames: seq<Frame>, f: Frame)
    requires Grammar(cfg, frames, false) && frames != []
    requires f.kind.RuntimeOutput? || f.kind.ToolCallRequested? || f.kind.ToolResultReceived?
    requires f.seqNo == |frames| + 1 && f.identity == cfg.identity
    ensures Grammar(cfg, frames + [f], false)
  {
  }

  lemma AppendKeeps(cfg: Config, log: Log, f: Frame)
    requires LogInv(cfg, log, false) && log.started && Room(cfg, log, 1)
    requires f.kind.RuntimeOutput? || f.kind.ToolCallRequested? || f.kind.ToolResultReceived?
    ensures var (l, ok) := Append(cfg, log, f);
            && LogInv(cfg, l, false) && l == log.(frames := l.frames)
            && Spoken(l.frames) == Spoken(log.frames) + (if ok && f.kind.RuntimeOutput? then f.text else "")
            && |l.frames| <= |log.frames| + 1
  {
    hide Grammar, Spoken;
    GrammarMore(cfg, log.frames, Numbered(cfg, log, f));
    SpokenMore(log.frames, Numbered(cfg, log, f));
  }

  lemma StartKeeps(cfg: Config, log: Log)
    requires LogInv(cfg, log, false)
    ensures var (l, ok) := EnsureStarted(cfg, log);
            && LogInv(cfg, l, false) && (ok || log.started ==> l.started) && l == log.(frames := l.frames, started := l.started)
            && Spoken(l.frames) == Spoken(log.frames)
  {
    if !log.started {
      SpokenMore(log.frames, Numbered(cfg, log, Plain(TurnStarted, "", "")));
    }
  }

  /** A flush moves the waiting output into a frame, whole. */
  lemma FlushKeeps(cfg: Config, log: Log)
    requires LogInv(cfg, log, false)
    ensures var (l, ok) := Flush(cfg, log);
            && LogInv(cfg, l, false) && l.started == log.started
            && (ok ==> l.pendingOutput == "" && Spoken(l.frames) == Spoken(log.frames) + log.pendingOutput)
  {
    if log.pendingOutput != "" && Room(cfg, log, 1) {
      AppendKeeps(cfg, log.(flushTimer := false, pendingOutput := ""), Plain(RuntimeOutput, log.pendingOutput, ""));
    }
  }

  lemma DropKeeps(cfg: Config, log: Log)
    requires LogInv(cfg, log, false)
    ensures LogInv(cfg, log.(pendingOutput := ""), false)
  {
  }

  /** Started, and with room for its last frame. */
  lemma ClosingKeeps(cfg: Config, log: Log)
    requires LogInv(cfg, log, false) && SmallFit(cfg)
    ensures var l := Closing(cfg, log);
            && Grammar(cfg, l.frames, false) && l.started && l.frames != [] && l.pendingOutput == ""
            && (cfg.maxEvents > 0 ==> |l.frames| < cfg.maxEvents || |l.frames| == 1)
            && (log.started && log.pendingOutput == "" ==> l.frames == log.frames)
  {
    if log.started {
      FlushKeeps(cfg, log);
    } else {
      assert AppendStarted(cfg, log).1;
      assert Flush(cfg, AppendStarted(cfg, log).0).0.frames == AppendStarted(cfg, log).0.frames;
    }
  }

  lemma EndKeeps(cfg: Config, l: Log, last: Frame)
    requires Grammar(cfg, l.frames, false) && l.started && l.frames != [] && l.pendingOutput == "" && SmallFit(cfg)
    requires cfg.maxEvents > 0 ==> |l.frames| < cfg.maxEvents || |l.frames| == 1
    requires IsTerminal(last.kind) && Payload(last)
    ensures var (l1, ok) := Append(cfg, l, last);
            var l2 := if ok then l1 else Append(cfg, l1, MINIMAL_FAILURE).0;
            && LogInv(cfg, l2, true) && Spoken(l2.frames) == Spoken(l.frames)
            && l2.frames == l.frames + [if ok then Numbered(cfg, l, last) else Numbered(cfg, l, MINIMAL_FAILURE)]
  {
    SpokenMore(l.frames, Numbered(cfg, l, last));
    SpokenMore(l.frames, Numbered(cfg, l, MINIMAL_FAILURE));
  }

  function LastIn(log: Log): Frame {
    if log.frames == [] then MINIMAL_FAILURE else log.frames[|log.frames| - 1]
  }

  /** The log goes on where it was, and has one frame more at least. */
  ghost predicate EndsWith(before: Log, log: Log) {
    |before.frames| < |log.frames| && before.frames <= log.frames
  }

  lemma ClosingExtends(cfg: Config, log: Log)
    ensures log.frames <= Closing(cfg, log).frames
  {
  }

  /** A closed log goes on where it was, and ends with the frame asked for, or with a bare failure. */
  lemma ClosedEnds(cfg: Config, log: Log, last: Frame)
    ensures SmallFit(cfg) ==>
              && EndsWith(log, Closed(cfg, log, last))
              && LastIn(Closed(cfg, log, last)) in {Numbered(cfg, Closing(cfg, log), last), Numbered(cfg, Closing(cfg, log), MINIMAL_FAILURE)}
  {
    hide Closing, Numbered;
    ClosingExtends(cfg, log);
  }

  /** Output that was flushed is in the log, and what could not be flushed is the reason to end. */
  lemma FlushSpoken(cfg: Config, log: Log)
    ensures log.frames <= Flush(cfg, log).0.frames
    ensures Flush(cfg, log).1 ==>
              Flush(cfg, log).0.pendingOutput == "" && Spoken(Flush(cfg, log).0.frames) == Spoken(log.frames) + log.pendingOutput
  {
    SpokenMore(log.frames, Numbered(cfg, log, Plain(RuntimeOutput, log.pendingOutput, "")));
  }

  /** The log of a finished turn: its last frame is the one asked for, or a bare failure. */
  lemma ClosedKeeps(cfg: Config, log: Log, last: Frame)
    requires LogInv(cfg, log, false) && SmallFit(cfg) && IsTerminal(last.kind) && Payload(last)
    ensures var l := Closed(cfg, log, last);
            && LogInv(cfg, l, true)
            && (l.frames[|l.frames| - 1].kind.TurnCompleted? ==> last.kind.TurnCompleted? && l.frames[|l.frames| - 1].text == last.text)
            && (log.started && log.pendingOutput == "" ==> Spoken(l.frames) == Spoken(log.frames))
  {
    hide Closing, Append, LogInv, Spoken;
    ClosingKeeps(cfg, log);
    EndKeeps(cfg, Closing(cfg, log), last);
  }

  lemma TextKeeps(cfg: Config, log: Log, delta: string)
    requires LogInv(cfg, log, false) && log.started
    ensures var (l, ok) := TakeText(cfg, log, delta);
            && LogInv(cfg, l, false) && l.started
            && (ok ==> Spoken(l.frames) + l.pendingOutput == Spoken(log.frames) + log.pendingOutput + delta)
  {
    FlushKeeps(cfg, log.(pendingOutput := log.pendingOutput + delta));
  }

  lemma ReadyKeeps(cfg: Config, log: Log)
    requires LogInv(cfg, log, false)
    ensures var (l, ok) := ReadyForCall(cfg, log);
            && LogInv(cfg, l, false)
            && (ok ==> l.started && Room(cfg, l, 1) && l.pendingOutput == "" && Spoken(l.frames) == Spoken(log.frames) + log.pendingOutput)
  {
    StartKeeps(cfg, log);
    FlushKeeps(cfg, EnsureStarted(cfg, log).0);
  }

  lemma {:induction false} EmitKeeps(cfg: Config, log: Log, s: Calls, order: seq<string>)
    requires LogInv(cfg, log, false) && log.started && Room(cfg, log, |order|)
    requires forall i :: 0 <= i < |order| ==> order[i] in s.buffered
    ensures var (l, emitted, ok) := EmitResults(cfg, log, s, order);
            && LogInv(cfg, l, false) && l.started && l.pendingOutput == log.pendingOutput && Spoken(l.frames) == Spoken(log.frames)
            && |l.frames| <= |log.frames| + |order|
    decreases |order|
  {
    if order != [] {
      var n := |order| - 1;
      EmitKeeps(cfg, log, s, order[..n]);
      var (l, emitted, ok) := EmitResults(cfg, log, s, order[..n]);
      if ok && order[n] !in emitted {
        AppendKeeps(cfg, l, Plain(ToolResultReceived, s.buffered[order[n]].output, order[n]));
      }
    }
  }

  // ---------------------------------------------------------------------------
  // Reconnection
  // ---------------------------------------------------------------------------

  /** The frames a caller gets that has seen frames up to `afterSeq`. */
  function FramesAfter(frames: seq<Frame>, afterSeq: int): seq<Frame> {
    if afterSeq <= 0 then frames else frames[if afterSeq < |frames| then afterSeq else |frames|..]
  }

  /** Reconnecting after `afterSeq` frames yields the later ones, and no other, in order. */
  ghost predicate Resumes(frames: seq<Frame>, afterSeq: nat) {
    && (forall f :: f in FramesAfter(frames, afterSeq) <==> f in frames && f.seqNo > afterSeq)
    && (afterSeq <= |frames| ==> frames[..afterSeq] + FramesAfter(frames, afterSeq) == frames)
  }

  lemma ReconnectExact(cfg: Config, frames: seq<Frame>, done: bool, afterSeq: nat)
    requires Grammar(cfg, frames, done)
    ensures Resumes(frames, afterSeq)
  {
    var rest := FramesAfter(frames, afterSeq);
    forall f | f in frames && f.seqNo > afterSeq ensures f in rest {
      var i :| 0 <= i < |frames| && frames[i] == f;
      assert rest[i - afterSeq] == f;
    }
    forall f | f in rest ensures f in frames && f.seqNo > afterSeq {
      var i :| 0 <= i < |rest| && rest[i] == f;
      assert frames[afterSeq + i] == f;
    }
  }

  lemma ClosedGoesOn(cfg: Config, log: Log, last: Frame)
    ensures log.frames <= Closed(cfg, log, last).frames
  {
    assert log.frames <= Closing(cfg, log).frames;
  }

  lemma {:induction false} EmitGoesOn(cfg: Config, log: Log, s: Calls, order: seq<string>)
    requires forall i :: 0 <= i < |order| ==> order[i] in s.buffered
    ensures log.frames <= EmitResults(cfg, log, s, order).0.frames
    decreases |order|
  {
    if order != [] { EmitGoesOn(cfg, log, s, order[..|order| - 1]); }
  }
}
