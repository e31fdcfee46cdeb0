/** The gateway process: the order in which it saves its record and touches the remote side. */
module HostedProcess {
  import opened Text
  import opened HostedGateway

  // What a lifetime meets: answers of the remote side, and how each write of the record ends.
  datatype Surroundings = Surroundings(
    digest: string,
    tokenIo: Io,
    missing: bool,
    usable: bool,
    prepared: bool,
    intendIo: Io,
    answer: Answer,
    resultIo: Io,
    confirmed: bool,
    challenge: Challenge,
    pairID: string,
    bootstrapDigest: string,
    acknowledged: bool,
    exposureIo: Io,
    readied: bool,
    readyIo: Io)

  lemma RunMore(cfg: Config, s: State, events: seq<Event>, e: Event)
    ensures Run(cfg, s, events + [e]) == Apply(cfg, Run(cfg, s, events), e)
  {
    assert (events + [e])[..|events|] == events;
  }

  class Gateway {
    const cfg: Config
    var file: Ledger
    var ledger: Ledger
    var sent: nat
    var open: nat
    var bootstraps: nat
    ghost var stage: Stage
    ghost var history: seq<Event>

    ghost function Model(): State
      reads this
    {
      State(file, ledger, stage, World(sent, open, bootstraps))
    }

    /** The process is somewhere in a lifetime of its directory. */
    ghost predicate Valid()
      reads this
    {
      Model() == Run(cfg, Initial(cfg), history) && Inv(cfg, Model())
    }

    /** A directory that its creator has just initialized. */
    constructor (cfg: Config)
      ensures Valid() && this.cfg == cfg && stage == Down && history == []
    {
      this.cfg := cfg;
      file, ledger := FreshLedger(cfg), FreshLedger(cfg);
      sent, open, bootstraps := 0, 0, 0;
      stage, history := Down, [];
    }

    /** The next event of the lifetime; the fields already show what it did. */
    ghost method Note(e: Event, before: State)
      requires before == Run(cfg, Initial(cfg), history) && Inv(cfg, before) && Model() == Apply(cfg, before, e)
      modifies this`history
      ensures Valid() && history == old(history) + [e]
    {
      RunMore(cfg, Initial(cfg), history, e);
      ApplyInv(cfg, before, e);
      history := history + [e];
    }

    method SaveRecord(next: Ledger, io: Io) returns (ok: bool)
      modifies this`file
      ensures ok == io.Saved? && file == if io.LostOld? then old(file) else next
    {
      if !io.LostOld? {
        file := next;
      }
      ok := io.Saved?;
    }

    /** Save the record and go on with it, or give up. */
    method Advance(next: Ledger, io: Io, ghost done: Stage) returns (ok: bool)
      modifies this`file, this`ledger, this`stage
      ensures Model() == Save(old(Model()), next, io, done) && ok == io.Saved?
    {
      ok := SaveRecord(next, io);
      if ok {
        ledger := next;
        stage := done;
      } else {
        stage := Failing;
      }
    }

    method GiveUp()
      requires Valid() && stage != Down
      modifies this
      ensures Valid() && stage == Failing && file == old(file) && bootstraps == old(bootstraps) && open == old(open)
    {
      ghost var before := Model();
      stage := Failing;
      Note(Fail, before);
    }

    /** A start refuses a record that is not valid, and one whose credentials may be exposed. */
    method Start() returns (ok: bool)
      requires Valid() && stage == Down
      modifies this
      ensures Valid() && ok == (LedgerValid(old(file), cfg) && !old(file).exposurePossible)
      ensures stage == if ok then Opened else Down
    {
      ghost var before := Model();
      ok := LedgerValid(file, cfg) && !file.exposurePossible;
      if ok {
        ledger := file;
        stage := Opened;
      }
      Note(Open, before);
    }

    /** The first token pins the account; a token of another account ends the lifetime. */
    method AccessToken(digest: string, io: Io) returns (ok: bool)
      requires Valid() && Tokened(stage) && DigestValid(digest)
      modifies this
      ensures Valid() && (ok ==> stage == old(stage) && ledger.principal == digest) && (!ok ==> stage == Failing)
      ensures ledger == old(ledger).(principal := ledger.principal)
    {
      ghost var before := Model();
      if ledger.principal == "" {
        ok := Advance(ledger.(principal := digest), io, stage);
      } else {
        ok := ledger.principal == digest;
        if !ok {
          stage := Failing;
        }
      }
      Note(Token(digest, io), before);
    }

    /** The remote session: found, or created by this attempt alone. */
    method EnsureSession(env: Surroundings) returns (ok: bool)
      requires Valid() && stage == Opened && ledger.principal != ""
      modifies this
      ensures Valid() && stage == (if ok then Active else Failing)
    {
      ghost var before := Model();
      if ledger.createAttempted && !ledger.sessionCreated {
        stage := Failing;
        Note(Lookup(env.missing, env.usable), before);
        return false;
      }
      if ledger.createAttempted {
        stage := if env.usable then Active else Failing;
        Note(Lookup(env.missing, env.usable), before);
        return env.usable;
      }
      stage := if env.missing then Missing else Failing;
      Note(Lookup(env.missing, env.usable), before);
      if !env.missing {
        return false;
      }
      if !env.prepared {
        GiveUp();
        return false;
      }
      ok := CreateSession(env);
    }

    method CreateSession(env: Surroundings) returns (ok: bool)
      requires Valid() && stage == Missing
      modifies this
      ensures Valid() && stage == (if ok then Active else Failing)
    {
      ok := Intend(env.intendIo);
      if !ok {
        return false;
      }
      Send(env.answer);
      match env.answer {
        case Unknown => return false;
        case Rejected =>
          RecordRefusal(env.resultIo);
          return false;
        case Accepted =>
          ok := RecordCreated(env.resultIo);
          if !ok {
            return false;
          }
          ConfirmSession(env.confirmed);
          return env.confirmed;
      }
    }

    method Intend(io: Io) returns (ok: bool)
      requires Valid() && stage == Missing
      modifies this
      ensures Valid() && stage == (if ok then Intended else Failing) && ledger.sessionCreated == false
    {
      ghost var before := Model();
      ok := Advance(ledger.(createAttempted := true), io, Intended);
      Note(IntendCreate(io), before);
    }

    /** A definite refusal proves that nothing was created. */
    method RecordRefusal(io: Io)
      requires Valid() && stage == Refused
      modifies this
      ensures Valid() && stage == Failing
    {
      ghost var before := Model();
      var _ := Advance(ledger.(createAttempted := false), io, Failing);
      Note(SaveRefusal(io), before);
    }

    method RecordCreated(io: Io) returns (ok: bool)
      requires Valid() && stage == Made && !ledger.sessionCreated
      modifies this
      ensures Valid() && stage == (if ok then Made else Failing) && (ok ==> ledger.sessionCreated)
    {
      ghost var before := Model();
      ok := Advance(ledger.(sessionCreated := true), io, Made);
      Note(SaveCreated(io), before);
    }

    method ConfirmSession(usable: bool)
      requires Valid() && stage == Made && ledger.sessionCreated
      modifies this
      ensures Valid() && stage == (if usable then Active else Failing)
    {
      ghost var before := Model();
      stage := if usable then Active else Failing;
      Note(Confirm(usable), before);
    }

    method Send(answer: Answer)
      requires Valid() && stage == Intended
      modifies this
      ensures Valid() && ledger == old(ledger)
      ensures stage == match answer case Accepted => Made case Rejected => Refused case Unknown => Failing
    {
      ghost var before := Model();
      sent := sent + 1;
      if !answer.Rejected? {
        open := open + 1;
      }
      stage := match answer case Accepted => Made case Rejected => Refused case Unknown => Failing;
      Note(SendCreate(answer), before);
    }

    /** Exposure on file first, then the bootstrap, then readiness. */
    method Bootstrap(env: Surroundings) returns (ok: bool)
      requires Valid() && stage == Paired(env.challenge, env.pairID, env.bootstrapDigest)
      modifies this
      ensures Valid() && stage == (if ok then Serving else Failing)
      ensures bootstraps <= old(bootstraps) + 1 && (bootstraps > old(bootstraps) ==> file.exposurePossible)
      ensures ok ==> file.ready && bootstraps == 1
    {
      hide LedgerValid, Run, Apply;
      ok := RecordExposure(env);
      if !ok {
        return false;
      }
      WriteBootstrapBytes();
      if !env.readied {
        GiveUp();
        return false;
      }
      ok := RecordReady(env.readyIo);
    }

    method RecordExposure(env: Surroundings) returns (ok: bool)
      requires Valid() && stage == Paired(env.challenge, env.pairID, env.bootstrapDigest)
      modifies this
      ensures Valid() && stage == (if ok then Exposed else Failing) && bootstraps == old(bootstraps)
    {
      hide LedgerValid;
      ghost var before := Model();
      ok := Advance(ledger.(exposurePossible := true, challenge := env.challenge, pairID := env.pairID, bootstrapDigest := env.bootstrapDigest),
                    env.exposureIo, Exposed);
      Note(SaveExposure(env.exposureIo), before);
    }

    method WriteBootstrapBytes()
      requires Valid() && stage == Exposed
      modifies this
      ensures Valid() && stage == Written && bootstraps == old(bootstraps) + 1 == 1 && file == old(file) && file.exposurePossible
    {
      hide LedgerValid;
      ghost var before := Model();
      bootstraps := bootstraps + 1;
      stage := Written;
      Note(WriteBootstrap, before);
    }

    method RecordReady(io: Io) returns (ok: bool)
      requires Valid() && stage == Written && file.exposurePossible
      modifies this
      ensures Valid() && stage == (if ok then Serving else Failing) && bootstraps == old(bootstraps) && file.exposurePossible
      ensures ok ==> file.ready
    {
      hide LedgerValid;
      ghost var before := Model();
      ok := Advance(ledger.(ready := true), io, Serving);
      Note(SaveReady(io), before);
    }

    method PairChannels(env: Surroundings) returns (ok: bool)
      requires Valid() && stage == Active
      modifies this
      ensures Valid() && stage == (if ok then Paired(env.challenge, env.pairID, env.bootstrapDigest) else Failing)
    {
      hide LedgerValid;
      ghost var before := Model();
      ok := ChallengeValid(env.challenge, cfg) && IdValid(env.pairID) && DigestValid(env.bootstrapDigest);
      stage := if ok then Paired(env.challenge, env.pairID, env.bootstrapDigest) else Failing;
      Note(Pair(env.challenge, env.pairID, env.bootstrapDigest), before);
    }

    /** A whole initialization. */
    method Initialize(env: Surroundings) returns (ok: bool)
      requires Valid() && stage == Opened
      modifies this
      ensures Valid() && stage == (if ok then Serving else Failing)
      ensures ok ==> file.ready && file.exposurePossible && bootstraps == 1
    {
      if !DigestValid(env.digest) {
        GiveUp();
        return false;
      }
      ok := AccessToken(env.digest, env.tokenIo);
      if !ok {
        return false;
      }
      ok := EnsureSession(env);
      if !ok {
        return false;
      }
      ok := PairChannels(env);
      if !ok {
        return false;
      }
      if !env.acknowledged {
        GiveUp();
        return false;
      }
      ok := Bootstrap(env);
    }

    /** The end of a lifetime; a record of exposure stays on file even if this write fails. */
    method CloseGateway(io: Io)
      requires Valid() && (stage == Failing || stage == Serving)
      modifies this
      ensures Valid() && stage == Down && (old(file).exposurePossible ==> file.exposurePossible)
      ensures bootstraps == old(bootstraps) && open == old(open)
    {
      ghost var before := Model();
      if ledger.exposurePossible {
        var _ := Advance(ledger.(closed := true), io, Down);
      }
      stage := Down;
      Note(Close(io), before);
    }
  }
}
