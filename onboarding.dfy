/** The decisions of `kr codesign` (codesignCommand and the onboarding steps it
    runs), with the outcomes of outside calls and of the user's answers given
    as inputs. */
module Onboarding {
  import opened Wrappers
  import opened Text
  import opened Exec
  import opened GitConfig
  import opened ShellProfile
  import opened ProfilePatch

  /** What the phone reports for the user: the armored PGP public key and its
      SHA-1 fingerprint, either of which may fail to be produced. */
  datatype Identity = Identity(armoredKey: Option<string>, fingerprint: Option<string>)

  /** Outcomes of the calls codesignCommand makes before it writes anything. */
  datatype Probe = Probe(
    latestKrdRunning: bool,       // IsLatestKrdRunning reported true without error
    gitLocated: bool,             // checkGitLocation: git runs from /usr/bin or /usr/local/bin, or `which git` succeeds
    gitUserId: Option<string>,    // GlobalGitUserId
    me: Option<Identity>,         // RequestMeForceRefresh
    whichKrgpg: Option<string>,   // output of `which krgpg`, None when it fails
    linkOk: bool)                 // whether `git config --global gpg.program <path>` succeeds

  datatype FatalReason =
    | OldKrdRunning
    | GitNotFound
    | GitUserIdNotConfigured
    | IdentityRequestFailed
    | NoPGPPublicKey
    | KrgpgNotFound
    | LinkFailed

  datatype Preflight = Abort(reason: FatalReason) | Proceed(me: Identity, krgpgPath: string)

  /** The fatal checks, in the order codesignCommand makes them, ending with the
      write of gpg.program, whose failure is fatal too. The run stops at the
      first check that fails, with that check's reason; it goes on exactly when
      all pass, with gpg.program set to the trimmed `which` output. */
  function CheckPreconditions(p: Probe): (r: Preflight)
    ensures r.Proceed? <==>
      && p.latestKrdRunning && p.gitLocated && p.gitUserId.Some? && p.me.Some?
      && p.me.value.armoredKey.Some? && p.whichKrgpg.Some? && p.linkOk
    ensures r.Proceed? ==> r.me == p.me.value && r.krgpgPath == TrimSpace(p.whichKrgpg.value)
    ensures r == Abort(OldKrdRunning) <==> !p.latestKrdRunning
    ensures r == Abort(GitNotFound) <==> p.latestKrdRunning && !p.gitLocated
    ensures r == Abort(GitUserIdNotConfigured) <==>
      p.latestKrdRunning && p.gitLocated && p.gitUserId.None?
    ensures r == Abort(IdentityRequestFailed) <==>
      p.latestKrdRunning && p.gitLocated && p.gitUserId.Some? && p.me.None?
    ensures r == Abort(NoPGPPublicKey) <==>
      && p.latestKrdRunning && p.gitLocated && p.gitUserId.Some? && p.me.Some?
      && p.me.value.armoredKey.None?
    ensures r == Abort(KrgpgNotFound) <==>
      && p.latestKrdRunning && p.gitLocated && p.gitUserId.Some? && p.me.Some?
      && p.me.value.armoredKey.Some? && p.whichKrgpg.None?
    ensures r == Abort(LinkFailed) <==>
      && p.latestKrdRunning && p.gitLocated && p.gitUserId.Some? && p.me.Some?
      && p.me.value.armoredKey.Some? && p.whichKrgpg.Some? && !p.linkOk
  {
    if !p.latestKrdRunning then Abort(OldKrdRunning)
    else if !p.gitLocated then Abort(GitNotFound)
    else if p.gitUserId.None? then Abort(GitUserIdNotConfigured)
    else if p.me.None? then Abort(IdentityRequestFailed)
    else if p.me.value.armoredKey.None? then Abort(NoPGPPublicKey)
    else if p.whichKrgpg.None? then Abort(KrgpgNotFound)
    else if !p.linkOk then Abort(LinkFailed)
    else Proceed(p.me.value, TrimSpace(p.whichKrgpg.value))
  }

  /** The process environment the steps read, and the --interactive flag. */
  datatype Session = Session(interactive: bool, shell: string, home: string, gpgTTY: string)

  /** The user's answers to the confirm prompts (asked only when interactive). */
  datatype Answers = Answers(autoSign: bool, importKey: bool)

  /** Whether gpg is installed, and whether its two commands succeed when run. */
  datatype GpgEnv = GpgEnv(hasGPG: bool, importOk: bool, trustOk: bool)

  datatype LocalGpgResult = NoGpg | Declined | FingerprintFailed | ImportFailed | TrustFailed | KeyTrusted

  /** What a step reports and the commands it ran. */
  datatype StepRun = StepRun(result: LocalGpgResult, commands: seq<Command>)

  /** The owner-trust line that marks the key ultimately trusted (level 6). */
  function OwnertrustLine(fingerprint: string): string
  {
    fingerprint + ":6:\r\n"
  }

  /** The armored key as onboardLocalGPG reads it, ignoring the error. */
  function ArmoredKeyOrEmpty(me: Identity): string
  {
    me.armoredKey.GetOr("")
  }

  /** onboardLocalGPG: nothing without gpg or without the user's consent; then
      fingerprint, import and trust, each failure ending this step only. */
  function LocalGpgRun(interactive: bool, confirmed: bool, gpg: GpgEnv, me: Identity): (r: StepRun)
    ensures !gpg.hasGPG ==> r == StepRun(NoGpg, [])
    ensures gpg.hasGPG && interactive && !confirmed ==> r == StepRun(Declined, [])
    ensures |r.commands| <= 2
    ensures |r.commands| >= 1 ==> me.fingerprint.Some? && r.commands[0] == GpgImport(ArmoredKeyOrEmpty(me))
    ensures |r.commands| == 2 ==>
      gpg.importOk && r.commands[1] == GpgImportOwnertrust(OwnertrustLine(me.fingerprint.value))
    ensures gpg.hasGPG && (!interactive || confirmed) && me.fingerprint.Some? ==>
      |r.commands| == (if gpg.importOk then 2 else 1)
    ensures r.result == FingerprintFailed <==>
      gpg.hasGPG && (!interactive || confirmed) && me.fingerprint.None?
    ensures r.result == ImportFailed <==>
      gpg.hasGPG && (!interactive || confirmed) && me.fingerprint.Some? && !gpg.importOk
    ensures r.result == TrustFailed <==>
      gpg.hasGPG && (!interactive || confirmed) && me.fingerprint.Some? && gpg.importOk && !gpg.trustOk
    ensures r.result == KeyTrusted <==>
      gpg.hasGPG && (!interactive || confirmed) && me.fingerprint.Some? && gpg.importOk && gpg.trustOk
  {
    if !gpg.hasGPG then StepRun(NoGpg, [])
    else if interactive && !confirmed then StepRun(Declined, [])
    else if me.fingerprint.None? then StepRun(FingerprintFailed, [])
    else
      var importKey := GpgImport(ArmoredKeyOrEmpty(me));
      if !gpg.importOk then StepRun(ImportFailed, [importKey])
      else
        var trust := GpgImportOwnertrust(OwnertrustLine(me.fingerprint.value));
        StepRun(if gpg.trustOk then KeyTrusted else TrustFailed, [importKey, trust])
  }

  /** The one-shot prefix onboardGPG_TTY shows before `kr codesign test`. */
  function RunPrefix(session: Session, stmt: string): (r: string)
    ensures r == "" <==> session.gpgTTY != ""
    ensures session.gpgTTY == "" && session.interactive ==> r == "export GPG_TTY=$(tty); "
    ensures session.gpgTTY == "" && !session.interactive ==> r == stmt + "; "
  {
    if session.gpgTTY != "" then ""
    else if session.interactive then "export GPG_TTY=$(tty); "
    else stmt + "; "
  }

  /** The command line onboardGPG_TTY tells the user to run, for the files as
      they are when the step starts. */
  function TestCommand(files: Files, session: Session): string
  {
    RunPrefix(session, ShellRCFileAndGPGTTYExport(session.shell, session.home, files.Keys).statement)
      + "kr codesign test"
  }

  /** The file system after onboardGPG_TTY: the profile is patched only when
      GPG_TTY is unset and the run is not interactive. */
  function TtyFiles(files: Files, session: Session, openOk: bool): (r: Files)
    ensures r != files ==> session.gpgTTY == "" && !session.interactive
  {
    if session.gpgTTY == "" && !session.interactive then
      var p := ShellRCFileAndGPGTTYExport(session.shell, session.home, files.Keys);
      PatchFile(files, p.file, p.statement, openOk)
    else files
  }

  /** The commands a successful `kr codesign` runs, in order: link krgpg, the
      auto-sign step, then the local gpg step. */
  function EnableCommands(krgpgPath: string, interactive: bool, answers: Answers, gpg: GpgEnv, me: Identity): seq<Command>
  {
    [GitConfigSet(GpgProgram, krgpgPath)]
      + AutoSignCommands(interactive, answers.autoSign)
      + LocalGpgRun(interactive, answers.importKey, gpg, me).commands
  }

  /** gpg commands leave the git configuration alone. */
  lemma {:induction false} GpgCommandsKeepConfig(cfg: Config, cmds: seq<Command>)
    requires forall i :: 0 <= i < |cmds| ==> cmds[i].GpgImport? || cmds[i].GpgImportOwnertrust?
    ensures Replay(cfg, cmds) == cfg
    decreases |cmds|
  {
    if cmds != [] {
      GpgCommandsKeepConfig(Apply(cfg, cmds[0]), cmds[1..]);
    }
  }

  /** The enable commands, run on a configuration, give EnableConfig of it. */
  lemma EnableCommandsMatchConfig(cfg: Config, krgpgPath: string, interactive: bool, answers: Answers, gpg: GpgEnv, me: Identity)
    ensures Replay(cfg, EnableCommands(krgpgPath, interactive, answers, gpg, me))
      == EnableConfig(cfg, krgpgPath, interactive, answers.autoSign)
  {
    var link := [GitConfigSet(GpgProgram, krgpgPath)];
    var auto := AutoSignCommands(interactive, answers.autoSign);
    var local := LocalGpgRun(interactive, answers.importKey, gpg, me).commands;
    ReplayConcat(cfg, link + auto, local);
    ReplayConcat(cfg, link, auto);
    assert Replay(cfg, link) == Replay(cfg[GpgProgram := krgpgPath], []);
    AutoSignCommandsMatch(cfg[GpgProgram := krgpgPath], interactive, answers.autoSign);
    GpgCommandsKeepConfig(EnableConfig(cfg, krgpgPath, interactive, answers.autoSign), local);
  }

  /** krgpg is linked before anything else: after every command of the enable
      run, gpg.program already names the krgpg path, so auto-signing is never
      on while gpg.program names another program. */
  lemma SigningProgramLinkedThroughout(cfg: Config, krgpgPath: string, interactive: bool, answers: Answers, gpg: GpgEnv, me: Identity)
    ensures var cmds := EnableCommands(krgpgPath, interactive, answers, gpg, me);
      forall n :: 1 <= n <= |cmds| ==>
        GpgProgram in Replay(cfg, cmds[..n]) && Replay(cfg, cmds[..n])[GpgProgram] == krgpgPath
  {
    var cmds := EnableCommands(krgpgPath, interactive, answers, gpg, me);
    var linked := cfg[GpgProgram := krgpgPath];
    forall n | 1 <= n <= |cmds|
      ensures GpgProgram in Replay(cfg, cmds[..n]) && Replay(cfg, cmds[..n])[GpgProgram] == krgpgPath
    {
      var rest := cmds[..n][1..];
      assert cmds[..n] == [cmds[0]] + rest;
      ReplayConcat(cfg, [cmds[0]], rest);
      assert Replay(cfg, [cmds[0]]) == Replay(linked, []);
      forall i | 0 <= i < |rest| ensures !Touches(rest[i], GpgProgram) {
        assert rest[i] == cmds[i + 1];
      }
      ReplayKeepsUntouched(linked, rest, GpgProgram);
    }
  }

  /** In an unattended run without GPG_TTY, the prefix shown is the statement
      the profile now holds (when the profile could be opened). */
  lemma PrefixMatchesPatchedProfile(files: Files, session: Session, openOk: bool)
    requires session.gpgTTY == "" && !session.interactive
    ensures var p := ShellRCFileAndGPGTTYExport(session.shell, session.home, files.Keys);
      && TestCommand(files, session) == p.statement + "; kr codesign test"
      && (openOk ==> p.file in TtyFiles(files, session, openOk)
                     && Contains(TtyFiles(files, session, openOk)[p.file], p.statement))
  {
    UnattendedPrefix(files, session);
    if openOk {
      UnattendedPatch(files, session);
    }
  }

  /** The RUN line of an unattended run without GPG_TTY carries the chosen statement. */
  lemma UnattendedPrefix(files: Files, session: Session)
    requires session.gpgTTY == "" && !session.interactive
    ensures TestCommand(files, session)
      == ShellRCFileAndGPGTTYExport(session.shell, session.home, files.Keys).statement + "; kr codesign test"
  {
    var stmt := ShellRCFileAndGPGTTYExport(session.shell, session.home, files.Keys).statement;
    assert RunPrefix(session, stmt) == stmt + "; ";
    assert stmt + "; " + "kr codesign test" == stmt + "; kr codesign test";
  }

  /** An unattended run without GPG_TTY whose open succeeds leaves the statement in the profile. */
  lemma UnattendedPatch(files: Files, session: Session)
    requires session.gpgTTY == "" && !session.interactive
    ensures var p := ShellRCFileAndGPGTTYExport(session.shell, session.home, files.Keys);
      p.file in TtyFiles(files, session, true) && Contains(TtyFiles(files, session, true)[p.file], p.statement)
  {
    var p := ShellRCFileAndGPGTTYExport(session.shell, session.home, files.Keys);
    PatchEstablishesStatement(files, p.file, p.statement);
  }

  /** An interactive run without GPG_TTY writes no file and shows the POSIX
      export as the prefix, whatever the shell (fish and csh included). */
  lemma InteractiveShowsPosixPrefix(files: Files, session: Session, openOk: bool)
    requires session.gpgTTY == "" && session.interactive
    ensures TtyFiles(files, session, openOk) == files
    ensures TestCommand(files, session) == "export GPG_TTY=$(tty); kr codesign test"
  {
    var stmt := ShellRCFileAndGPGTTYExport(session.shell, session.home, files.Keys).statement;
    assert RunPrefix(session, stmt) == "export GPG_TTY=$(tty); ";
  }

  /** Re-running the step after a successful patch writes nothing more and shows
      the same command line. */
  lemma TtyStepRerunnable(files: Files, session: Session, secondOpenOk: bool)
    ensures var once := TtyFiles(files, session, true);
      TtyFiles(once, session, secondOpenOk) == once && TestCommand(once, session) == TestCommand(files, session)
  {
    if session.gpgTTY == "" && !session.interactive {
      AddExportTwiceIsOnce(files, session.shell, session.home, secondOpenOk);
    }
  }
}
