/**
 The one-shot hosted gateway over any number of lifetimes on one state directory: what it saves,
 what it sends, and what a crash at any point can leave behind.
 */
module HostedGateway {
  import opened Text

  datatype Image = Image(deploymentID: string, configurationDigest: string, agentName: string, agentVersion: string)

  datatype Config = Config(digest: string, sessionID: string, image: Image)

  datatype Challenge = Challenge(
    protocolName: string,
    deploymentID: string,
    configurationDigest: string,
    agentName: string,
    agentVersion: string,
    sessionID: string,
    bootID: string,
    nonce: seq<bv8>)

  const NO_CHALLENGE := Challenge("", "", "", "", "", "", "", [])

  const PROTOCOL := "orka.foundry.hosted.v1"
  const NONCE_BYTES: nat := 32

  datatype Ledger = GatewayLedger(
    configDigest: string,
    sessionID: string,
    principal: string,
    createAttempted: bool,
    sessionCreated: bool,
    exposurePossible: bool,
    challenge: Challenge,
    pairID: string,
    bootstrapDigest: string,
    ready: bool,
    closed: bool)

  function FreshLedger(cfg: Config): Ledger {
    GatewayLedger(cfg.digest, cfg.sessionID, "", false, false, false, NO_CHALLENGE, "", "", false, false)
  }

  const NIL_UUID := "00000000-0000-0000-0000-000000000000"

  predicate IdValid(s: string) {
    UuidValid(s) && s != NIL_UUID
  }

  predicate NonceValid(nonce: seq<bv8>) {
    |nonce| == NONCE_BYTES && exists i :: 0 <= i < |nonce| && nonce[i] != 0
  }

  predicate ChallengeValid(c: Challenge, cfg: Config) {
    && IdValid(c.bootID) && NonceValid(c.nonce) && c.sessionID == cfg.sessionID && c.protocolName == PROTOCOL
    && c.configurationDigest == cfg.image.configurationDigest && c.deploymentID == cfg.image.deploymentID
    && c.agentName == cfg.image.agentName && c.agentVersion == cfg.image.agentVersion
  }

  /** The check a start makes of the saved record. */
  predicate LedgerValid(v: Ledger, cfg: Config) {
    && v.configDigest == cfg.digest && v.sessionID == cfg.sessionID
    && (v.principal != "" ==> DigestValid(v.principal))
    && (v.createAttempted ==> v.principal != "")
    && (v.sessionCreated ==> v.createAttempted)
    && (v.ready ==> v.exposurePossible)
    && if !v.exposurePossible then
         v.challenge == NO_CHALLENGE && v.pairID == "" && v.bootstrapDigest == "" && !v.closed
       else
         && v.sessionCreated && v.principal != "" && IdValid(v.pairID)
         && DigestValid(v.bootstrapDigest) && ChallengeValid(v.challenge, cfg)
  }

  // ---------------------------------------------------------------------------
  // One state directory
  // ---------------------------------------------------------------------------

  // How a write of the record ended; a failed one may still have replaced the file.
  datatype Io = Saved | LostOld | LostNew

  datatype Answer = Accepted | Rejected | Unknown

  datatype Stage =
    | Down
    | Opened
    | Missing
    | Intended
    | Refused
    | Made
    | Active
    | Paired(challenge: Challenge, pairID: string, digest: string)
    | Exposed
    | Written
    | Serving
    | Failing

  // `open` counts creations that were sent and not definitely refused; `bootstraps` those written.
  datatype World = World(sent: nat, open: nat, bootstraps: nat)

  datatype State = State(file: Ledger, ledger: Ledger, stage: Stage, world: World)

  datatype Event =
    | Open
    | Token(digest: string, io: Io)
    | Lookup(missing: bool, usable: bool)
    | IntendCreate(io: Io)
    | SendCreate(answer: Answer)
    | SaveRefusal(io: Io)
    | SaveCreated(io: Io)
    | Confirm(usable: bool)
    | Pair(challenge: Challenge, pairID: string, digest: string)
    | SaveExposure(io: Io)
    | WriteBootstrap
    | SaveReady(io: Io)
    | Fail
    | Close(io: Io)
    | Crash

  /** A write of the record, after which the process goes on or gives up. */
  function Save(s: State, next: Ledger, io: Io, done: Stage): State {
    match io
    case Saved => s.(file := next, ledger := next, stage := done)
    case LostOld => s.(stage := Failing)
    case LostNew => s.(file := next, stage := Failing)
  }

  predicate Tokened(stage: Stage) {
    stage.Opened? || stage.Missing? || stage.Made? || stage.Active?
  }

  function Apply(cfg: Config, s: State, e: Event): State {
    var l := s.ledger;
    match e
    case Open =>
      if s.stage.Down? && LedgerValid(s.file, cfg) && !s.file.exposurePossible then s.(ledger := s.file, stage := Opened) else s
    case Token(digest, io) =>
      if !Tokened(s.stage) || !DigestValid(digest) then s
      else if l.principal == "" then Save(s, l.(principal := digest), io, s.stage)
      else if l.principal != digest then s.(stage := Failing)
      else s
    case Lookup(missing, usable) =>
      if !s.stage.Opened? || l.principal == "" then s
      else if l.createAttempted && !l.sessionCreated then s.(stage := Failing)
      else if !l.createAttempted then s.(stage := if missing then Missing else Failing)
      else s.(stage := if usable then Active else Failing)
    case IntendCreate(io) =>
      if s.stage.Missing? && l.principal != "" then Save(s, l.(createAttempted := true), io, Intended) else s
    case SendCreate(answer) =>
      if !s.stage.Intended? then s
      else
        var w := s.world.(sent := s.world.sent + 1);
        if answer.Accepted? then s.(world := w.(open := w.open + 1), stage := Made)
        else if answer.Rejected? then s.(world := w, stage := Refused)
        else s.(world := w.(open := w.open + 1), stage := Failing)
    case SaveRefusal(io) =>
      if s.stage.Refused? then Save(s, l.(createAttempted := false), io, Failing) else s
    case SaveCreated(io) =>
      if s.stage.Made? && !l.sessionCreated then Save(s, l.(sessionCreated := true), io, Made) else s
    case Confirm(usable) =>
      if s.stage.Made? && l.sessionCreated then s.(stage := if usable then Active else Failing) else s
    case Pair(challenge, pairID, digest) =>
      if !s.stage.Active? then s
      else if ChallengeValid(challenge, cfg) && IdValid(pairID) && DigestValid(digest) then s.(stage := Paired(challenge, pairID, digest))
      else s.(stage := Failing)
    case SaveExposure(io) =>
      if !s.stage.Paired? then s
      else
        Save(s, l.(exposurePossible := true, challenge := s.stage.challenge, pairID := s.stage.pairID, bootstrapDigest := s.stage.digest),
             io, Exposed)
    case WriteBootstrap =>
      if s.stage.Exposed? then s.(world := s.world.(bootstraps := s.world.bootstraps + 1), stage := Written) else s
    case SaveReady(io) => if s.stage.Written? then Save(s, l.(ready := true), io, Serving) else s
    case Fail => if s.stage.Down? then s else s.(stage := Failing)
    case Close(io) =>
      if !s.stage.Failing? && !s.stage.Serving? then s
      else if l.exposurePossible then Save(s, l.(closed := true), io, Down).(stage := Down)
      else s.(stage := Down)
    case Crash => s.(stage := Down)
  }

  function Run(cfg: Config, s: State, events: seq<Event>): State {
    if events == [] then s else Apply(cfg, Run(cfg, s, events[..|events| - 1]), events[|events| - 1])
  }

  function Initial(cfg: Config): State {
    State(FreshLedger(cfg), FreshLedger(cfg), Down, World(0, 0, 0))
  }

  // ---------------------------------------------------------------------------
  // The invariant
  // ---------------------------------------------------------------------------

  predicate BeforeExposure(stage: Stage) {
    stage.Opened? || stage.Missing? || stage.Intended? || stage.Refused? || stage.Made? || stage.Active? || stage.Paired?
  }

  predicate StageInv(cfg: Config, s: State) {
    match s.stage
    case Down => true
    case Opened => true
    case Missing => !s.ledger.createAttempted && s.ledger.principal != ""
    case Intended => s.ledger.createAttempted && !s.ledger.sessionCreated && s.world.open == 0
    case Refused => s.ledger.createAttempted && !s.ledger.sessionCreated && s.world.open == 0
    case Made => s.ledger.createAttempted
    case Active => s.ledger.sessionCreated
    case Paired(c, p, d) => s.ledger.sessionCreated && ChallengeValid(c, cfg) && IdValid(p) && DigestValid(d)
    case Exposed => s.ledger.exposurePossible && s.world.bootstraps == 0
    case Written | Serving => s.ledger.exposurePossible
    case Failing => true
  }

  predicate Inv(cfg: Config, s: State) {
    && LedgerValid(s.file, cfg)
    && (!s.stage.Down? ==> LedgerValid(s.ledger, cfg) && (s.ledger.exposurePossible ==> s.file.exposurePossible))
    && (!s.stage.Down? && !s.stage.Failing? ==> s.ledger == s.file)
    && (BeforeExposure(s.stage) ==> !s.ledger.exposurePossible)
    && StageInv(cfg, s)
    && s.world.bootstraps <= 1 && (s.world.bootstraps == 1 ==> s.file.exposurePossible)
    && s.world.open <= 1 && (s.world.open == 1 ==> s.file.createAttempted && (!s.stage.Down? ==> s.ledger.createAttempted))
    && (s.stage.Failing? && s.ledger.exposurePossible ==> s.file.createAttempted)
  }

  ghost predicate Kept(cfg: Config, s: State, t: State) {
    && Inv(cfg, t) && (s.file.exposurePossible ==> t.file.exposurePossible)
    && (t.world.bootstraps > s.world.bootstraps ==> s.file.exposurePossible)
  }

  predicate SavesRecord(e: Event) {
    e.Token? || e.IntendCreate? || e.SaveRefusal? || e.SaveCreated? || e.SaveExposure? || e.SaveReady? || e.Close?
  }

  lemma SavingKeeps(cfg: Config, s: State, e: Event)
    requires Inv(cfg, s) && SavesRecord(e) && !e.SaveExposure? && !e.Close?
    ensures Kept(cfg, s, Apply(cfg, s, e))
  {
    hide UuidValid, DigestValid, IdValid, NonceValid, ChallengeValid;
  }

  lemma ExposingKeeps(cfg: Config, s: State, e: Event)
    requires Inv(cfg, s) && (e.SaveExposure? || e.Close?)
    ensures Kept(cfg, s, Apply(cfg, s, e))
  {
    hide UuidValid, DigestValid, IdValid, NonceValid, ChallengeValid;
  }

  lemma MovingKeeps(cfg: Config, s: State, e: Event)
    requires Inv(cfg, s) && !SavesRecord(e)
    ensures Kept(cfg, s, Apply(cfg, s, e))
  {
    hide UuidValid, DigestValid, IdValid, NonceValid, ChallengeValid;
  }

  lemma ApplyInv(cfg: Config, s: State, e: Event)
    requires Inv(cfg, s)
    ensures Inv(cfg, Apply(cfg, s, e))
    ensures s.file.exposurePossible ==> Apply(cfg, s, e).file.exposurePossible
    ensures Apply(cfg, s, e).world.bootstraps > s.world.bootstraps ==> s.file.exposurePossible
  {
    hide Inv, Apply;
    if !SavesRecord(e) {
      MovingKeeps(cfg, s, e);
    } else if e.SaveExposure? || e.Close? {
      ExposingKeeps(cfg, s, e);
    } else {
      SavingKeeps(cfg, s, e);
    }
  }

  lemma {:induction false} RunInv(cfg: Config, s: State, events: seq<Event>)
    requires Inv(cfg, s)
    ensures Inv(cfg, Run(cfg, s, events))
    ensures s.file.exposurePossible ==> Run(cfg, s, events).file.exposurePossible
  {
    if events != [] {
      RunInv(cfg, s, events[..|events| - 1]);
      ApplyInv(cfg, Run(cfg, s, events[..|events| - 1]), events[|events| - 1]);
    }
  }

  /**
   Over any lifetimes on one directory, with any crashes: every record that is ever on file is
   valid, the bootstrap is written at most once and only with its exposure on file, and at most
   one session creation may have been accepted.
   */
  lemma OneShot(cfg: Config, events: seq<Event>)
    ensures var s := Run(cfg, Initial(cfg), events);
            && LedgerValid(s.file, cfg)
            && s.world.bootstraps <= 1 && (s.world.bootstraps == 1 ==> s.file.exposurePossible)
            && s.world.open <= 1 && (s.world.open == 1 ==> s.file.createAttempted)
  {
    RunInv(cfg, Initial(cfg), events);
  }

  /** The bootstrap is written only when its exposure was already on file. */
  lemma ExposedFirst(cfg: Config, events: seq<Event>, e: Event)
    requires Run(cfg, Initial(cfg), events + [e]).world.bootstraps > Run(cfg, Initial(cfg), events).world.bootstraps
    ensures Run(cfg, Initial(cfg), events).file.exposurePossible && Run(cfg, Initial(cfg), events).world.bootstraps == 0
  {
    assert (events + [e])[..|events|] == events;
    RunInv(cfg, Initial(cfg), events);
    ApplyInv(cfg, Run(cfg, Initial(cfg), events), e);
  }

  /** Once exposure is on file no later lifetime starts, creates or writes anything. */
  lemma {:induction false} ConsumedForGood(cfg: Config, s: State, events: seq<Event>)
    requires Inv(cfg, s) && s.stage.Down? && s.file.exposurePossible
    ensures var t := Run(cfg, s, events); t.stage.Down? && t.world == s.world && t.file == s.file
  {
    if events != [] {
      ConsumedForGood(cfg, s, events[..|events| - 1]);
    }
  }

  /** Creation was attempted, and nothing but a new lifetime can come of this one. */
  predicate GivenUp(s: State) {
    s.stage.Down? || (s.stage.Failing? && s.ledger.createAttempted && !s.ledger.sessionCreated && !s.ledger.exposurePossible)
  }

  /** A creation whose outcome is unknown is never repeated, in the rest of its lifetime or in a later one. */
  lemma {:induction false} UnknownForGood(cfg: Config, s: State, events: seq<Event>)
    requires Inv(cfg, s) && s.world.open == 1 && s.file.createAttempted && !s.file.sessionCreated && GivenUp(s)
    ensures var t := Run(cfg, s, events);
            && t.world == s.world && t.file.createAttempted && !t.file.sessionCreated
            && (t.stage.Down? || t.stage.Opened? || t.stage.Failing?)
            && (!t.stage.Down? ==> t.ledger.createAttempted && !t.ledger.sessionCreated && !t.ledger.exposurePossible)
  {
    if events != [] {
      UnknownForGood(cfg, s, events[..|events| - 1]);
      RunInv(cfg, s, events[..|events| - 1]);
    }
  }

  /** When no answer comes to a creation, it may have been accepted, and it is never sent again. */
  lemma UnansweredForGood(cfg: Config, s: State, events: seq<Event>)
    requires Inv(cfg, s) && s.stage.Intended?
    ensures var u := Apply(cfg, s, SendCreate(Unknown));
            u.world.open == 1 && Run(cfg, u, events).world == u.world
  {
    hide Run;
    ApplyInv(cfg, s, SendCreate(Unknown));
    UnknownForGood(cfg, Apply(cfg, s, SendCreate(Unknown)), events);
  }
}
