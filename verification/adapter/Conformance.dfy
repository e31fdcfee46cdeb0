/** The conformance check of a turn's frames, and that every completed turn passes it. */
module AdapterConformance {
  import opened Text
  import opened AdapterTurn
  import opened AdapterLog
  import opened AdapterInvariant

  datatype Fault = NoFrames | AfterTerminal(i: nat) | Invalid(i: nat) | OutOfOrder(i: nat) | Unrecognized(i: nat)
                 | OtherTurn(i: nat) | BeforeStarted(i: nat) | StartedCount | TerminalCount | CompletedCount

  predicate Blank(s: string) {
    forall i :: 0 <= i < |s| ==> IsSpace(s[i])
  }

  /** What every frame has to carry. */
  predicate RequiredValid(f: Frame) {
    && !Blank(f.identity.session) && !Blank(f.identity.turn) && !Blank(f.identity.correlation)
    && f.seqNo > 0 && Payload(f)
  }

  /** How many of the frames are of the kind asked for. */
  function CountKind(frames: seq<Frame>, p: FrameKind -> bool): nat {
    if frames == [] then 0
    else CountKind(frames[..|frames| - 1], p) + (if p(frames[|frames| - 1].kind) then 1 else 0)
  }

  function IsStarted(): FrameKind -> bool {
    (k: FrameKind) => k.TurnStarted?
  }

  function IsEnd(): FrameKind -> bool {
    (k: FrameKind) => IsTerminal(k)
  }

  function IsCompleted(): FrameKind -> bool {
    (k: FrameKind) => k.TurnCompleted?
  }

  predicate Sound(frames: seq<Frame>, id: Identity, i: nat)
    requires i < |frames|
  {
    && RequiredValid(frames[i]) && frames[i].identity == id && !frames[i].kind.UnknownKind?
    && (i > 0 ==> frames[i - 1].seqNo < frames[i].seqNo)
    && (forall j :: 0 <= j < i ==> !IsTerminal(frames[j].kind))
    && (exists j :: 0 <= j <= i && frames[j].kind.TurnStarted?)
  }

  /** The log of a turn that conforms and completed. */
  predicate Conforms(frames: seq<Frame>, id: Identity) {
    && frames != []
    && (forall i :: 0 <= i < |frames| ==> Sound(frames, id, i))
    && CountKind(frames, IsStarted()) == 1 && CountKind(frames, IsEnd()) == 1 && CountKind(frames, IsCompleted()) == 1
  }

  lemma CountMore(frames: seq<Frame>, i: nat, p: FrameKind -> bool)
    requires i < |frames|
    ensures CountKind(frames[..i + 1], p) == CountKind(frames[..i], p) + (if p(frames[i].kind) then 1 else 0)
  {
    assert frames[..i + 1][..i] == frames[..i];
  }

  /** What one more frame adds to the three counts. */
  lemma CountsNext(frames: seq<Frame>, i: nat)
    requires i < |frames|
    ensures CountKind(frames[..i + 1], IsStarted()) == CountKind(frames[..i], IsStarted()) + (if frames[i].kind.TurnStarted? then 1 else 0)
    ensures CountKind(frames[..i + 1], IsEnd()) == CountKind(frames[..i], IsEnd()) + (if IsTerminal(frames[i].kind) then 1 else 0)
    ensures CountKind(frames[..i + 1], IsCompleted()) == CountKind(frames[..i], IsCompleted()) + (if frames[i].kind.TurnCompleted? then 1 else 0)
  {
    CountMore(frames, i, IsStarted());
    CountMore(frames, i, IsEnd());
    CountMore(frames, i, IsCompleted());
  }

  lemma NoCounts()
    ensures CountKind([], IsStarted()) == 0 && CountKind([], IsEnd()) == 0 && CountKind([], IsCompleted()) == 0
  {
  }

  /** The checker's loop: it reports nothing exactly when the log conforms. */
  method ValidateProbeFrames(frames: seq<Frame>, id: Identity) returns (ok: bool, faults: seq<Fault>)
    ensures faults == [] <==> Conforms(frames, id)
    ensures ok <==> CountKind(frames, IsStarted()) == 1 && CountKind(frames, IsEnd()) == 1 && CountKind(frames, IsCompleted()) == 1
  {
    hide IsSpace, Blank, Payload, RequiredValid, CountKind, IsStarted, IsEnd, IsCompleted;
    NoCounts();
    faults := [];
    if frames == [] {
      return false, [NoFrames];
    }
    var terminal, completed, started := 0, 0, 0;
    var startedSeen, terminalSeen := false, false;
    var previous := 0;
    for i := 0 to |frames|
      invariant started == CountKind(frames[..i], IsStarted()) && terminal == CountKind(frames[..i], IsEnd())
      invariant completed == CountKind(frames[..i], IsCompleted())
      invariant startedSeen <==> exists j :: 0 <= j < i && frames[j].kind.TurnStarted?
      invariant terminalSeen <==> exists j :: 0 <= j < i && IsTerminal(frames[j].kind)
      invariant i > 0 ==> previous == frames[i - 1].seqNo
      invariant faults == [] <==> forall j :: 0 <= j < i ==> Sound(frames, id, j)
    {
      var f := frames[i];
      var found := CheckFrame(f, id, i, previous, startedSeen, terminalSeen);
      assert found == [] <==> Sound(frames, id, i);
      faults := faults + found;
      previous := f.seqNo;
      CountsNext(frames, i);
      match f.kind {
        case TurnStarted => started, startedSeen := started + 1, true;
        case TurnCompleted => terminal, completed, terminalSeen := terminal + 1, completed + 1, true;
        case TurnFailed | TurnCancelled => terminal, terminalSeen := terminal + 1, true;
        case _ =>
      }
    }
    assert frames[..|frames|] == frames;
    if started != 1 { faults := faults + [StartedCount]; }
    if terminal != 1 { faults := faults + [TerminalCount]; }
    if completed != 1 { faults := faults + [CompletedCount]; }
    ok := started == 1 && terminal == 1 && completed == 1;
  }

  method CheckFrame(f: Frame, id: Identity, i: nat, previous: int, startedSeen: bool, terminalSeen: bool) returns (faults: seq<Fault>)
    ensures faults == [] <==>
              && !terminalSeen && RequiredValid(f) && (i > 0 ==> f.seqNo > previous) && !f.kind.UnknownKind?
              && f.identity == id && (f.kind.TurnStarted? || startedSeen)
  {
    faults := [];
    if terminalSeen { faults := faults + [AfterTerminal(i)]; }
    if !RequiredValid(f) { faults := faults + [Invalid(i)]; }
    if i > 0 && f.seqNo <= previous { faults := faults + [OutOfOrder(i)]; }
    if f.kind.UnknownKind? { faults := faults + [Unrecognized(i)]; }
    if f.identity != id { faults := faults + [OtherTurn(i)]; }
    if !f.kind.TurnStarted? && !startedSeen { faults := faults + [BeforeStarted(i)]; }
  }

  lemma {:induction false} CountAt(frames: seq<Frame>, p: FrameKind -> bool, at: nat)
    requires at < |frames| && forall i :: 0 <= i < |frames| ==> (p(frames[i].kind) <==> i == at)
    ensures CountKind(frames, p) == 1
  {
    var n := |frames| - 1;
    if at < n {
      CountAt(frames[..n], p, at);
    } else {
      CountNone(frames[..n], p);
    }
  }

  lemma {:induction false} CountNone(frames: seq<Frame>, p: FrameKind -> bool)
    requires forall i :: 0 <= i < |frames| ==> !p(frames[i].kind)
    ensures CountKind(frames, p) == 0
  {
    if frames != [] { CountNone(frames[..|frames| - 1], p); }
  }

  /** A log that follows the grammar and ends with TurnCompleted conforms. */
  lemma GrammarConforms(cfg: Config, frames: seq<Frame>)
    requires Grammar(cfg, frames, true) && frames[|frames| - 1].kind.TurnCompleted?
    requires !Blank(cfg.identity.session) && !Blank(cfg.identity.turn) && !Blank(cfg.identity.correlation)
    ensures Conforms(frames, cfg.identity)
  {
    forall i | 0 <= i < |frames| ensures Sound(frames, cfg.identity, i) {
      assert frames[0].kind.TurnStarted?;
    }
    CountAt(frames, IsStarted(), 0);
    CountAt(frames, IsEnd(), |frames| - 1);
    forall i | 0 <= i < |frames| ensures IsCompleted()(frames[i].kind) <==> i == |frames| - 1 {
      assert IsCompleted()(frames[i].kind) ==> IsTerminal(frames[i].kind);
    }
    CountAt(frames, IsCompleted(), |frames| - 1);
  }

  /** Under every interleaving, a turn that completed passes the conformance check. */
  lemma CompletedTurnsConform(cfg: Config, agentSessionID: string, previousResponse: string, events: seq<Event>)
    requires SmallFit(cfg)
    requires !Blank(cfg.identity.session) && !Blank(cfg.identity.turn) && !Blank(cfg.identity.correlation)
    requires var frames := Run(cfg, Initial(agentSessionID, previousResponse), events).turn.log.frames;
             frames != [] && frames[|frames| - 1].kind.TurnCompleted?
    ensures Conforms(Run(cfg, Initial(agentSessionID, previousResponse), events).turn.log.frames, cfg.identity)
  {
    InitialInv(cfg, agentSessionID, previousResponse);
    RunInv(cfg, Initial(agentSessionID, previousResponse), events);
    var t := Run(cfg, Initial(agentSessionID, previousResponse), events).turn;
    assert IsTerminal(t.log.frames[|t.log.frames| - 1].kind);
    GrammarConforms(cfg, t.log.frames);
  }
}
