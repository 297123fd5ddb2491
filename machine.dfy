/** The machine `kr` runs on, as mutable state: the global git configuration,
    the file system and the log of state-changing commands. Each method is one
    function of kr_pgp.go, run step by step with its early returns. */
module Machine {
  import opened Wrappers
  import opened Text
  import opened Exec
  import opened GitConfig
  import opened ShellProfile
  import opened ProfilePatch
  import opened Onboarding

  /** How `kr codesign` ended: a fatal exit, or the end of the run with what
      the local gpg step reported and the command line it tells the user to run. */
  datatype EnableOutcome = Fatal(reason: FatalReason) | Enabled(localGpg: LocalGpgResult, testCommand: string)

  /** The fatal checks of codesignCommand, made one after the other on the
      outcomes of the outside calls; the first that fails ends the run. */
  method RunPreconditions(probe: Probe) returns (preflight: Preflight)
    ensures preflight == CheckPreconditions(probe)
  {
    if !probe.latestKrdRunning {
      return Abort(OldKrdRunning);
    }
    if !probe.gitLocated {
      return Abort(GitNotFound);
    }
    if probe.gitUserId.None? {
      return Abort(GitUserIdNotConfigured);
    }
    if probe.me.None? {
      return Abort(IdentityRequestFailed);
    }
    var me := probe.me.value;
    if me.armoredKey.None? {
      return Abort(NoPGPPublicKey);
    }
    if probe.whichKrgpg.None? {
      return Abort(KrgpgNotFound);
    }
    var krGPGPath := TrimSpace(probe.whichKrgpg.value);
    if !probe.linkOk {
      return Abort(LinkFailed);
    }
    preflight := Proceed(me, krGPGPath);
  }

  class Host {
    var gitConfig: Config
    var files: Files
    var commands: seq<Command>
    ghost var initialConfig: Config

    /** The configuration is what the commands run so far made of the initial one. */
    ghost predicate Valid()
      reads this
    {
      gitConfig == Replay(initialConfig, commands)
    }

    constructor (config: Config, fs: Files)
      ensures Valid()
      ensures gitConfig == config && files == fs && commands == []
    {
      gitConfig := config;
      files := fs;
      commands := [];
      initialConfig := config;
    }

    /** `git config --global key value`. */
    method SetConfig(key: string, value: string)
      requires Valid()
      modifies this`gitConfig, this`commands
      ensures Valid()
      ensures gitConfig == old(gitConfig)[key := value]
      ensures commands == old(commands) + [GitConfigSet(key, value)]
    {
      ReplayConcat(initialConfig, commands, [GitConfigSet(key, value)]);
      assert Replay(gitConfig, [GitConfigSet(key, value)]) == Replay(gitConfig[key := value], []);
      gitConfig := gitConfig[key := value];
      commands := commands + [GitConfigSet(key, value)];
    }

    /** `git config --global --unset key`; a missing key is left missing. */
    method UnsetConfig(key: string)
      requires Valid()
      modifies this`gitConfig, this`commands
      ensures Valid()
      ensures gitConfig == old(gitConfig) - {key}
      ensures commands == old(commands) + [GitConfigUnset(key)]
    {
      ReplayConcat(initialConfig, commands, [GitConfigUnset(key)]);
      assert Replay(gitConfig, [GitConfigUnset(key)]) == Replay(gitConfig - {key}, []);
      gitConfig := gitConfig - {key};
      commands := commands + [GitConfigUnset(key)];
    }

    /** Runs a gpg command, which leaves the git configuration alone. */
    method RunGpg(c: Command)
      requires Valid()
      requires c.GpgImport? || c.GpgImportOwnertrust?
      modifies this`commands
      ensures Valid()
      ensures commands == old(commands) + [c]
    {
      ReplayConcat(initialConfig, commands, [c]);
      assert Replay(gitConfig, [c]) == Replay(gitConfig, []);
      commands := commands + [c];
    }

    /** codesignOnCommand. */
    method CodesignOnCommand()
      requires Valid()
      modifies this`gitConfig, this`commands
      ensures Valid()
      ensures gitConfig == CodesignOn(old(gitConfig))
      ensures commands == old(commands) + [GitConfigSet(CommitGpgSign, "true")]
    {
      SetConfig(CommitGpgSign, "true");
    }

    /** codesignOffCommand: unsets commit.gpgSign only. */
    method CodesignOffCommand()
      requires Valid()
      modifies this`gitConfig, this`commands
      ensures Valid()
      ensures gitConfig == CodesignOff(old(gitConfig))
      ensures commands == old(commands) + [GitConfigUnset(CommitGpgSign)]
    {
      UnsetConfig(CommitGpgSign);
    }

    /** onboardAutoCommitSign; `confirmed` is the answer to its prompt, which is
        asked only when interactive. */
    method OnboardAutoCommitSign(interactive: bool, confirmed: bool)
      requires Valid()
      modifies this`gitConfig, this`commands
      ensures Valid()
      ensures gitConfig == AutoCommitSign(old(gitConfig), interactive, confirmed)
      ensures commands == old(commands) + AutoSignCommands(interactive, confirmed)
    {
      var autoSign := false;
      if interactive {
        if confirmed {
          autoSign := true;
        }
      }
      if autoSign || !interactive {
        SetConfig(CommitGpgSign, "true");
        SetConfig(TagForceSignAnnotated, "true");
      }
    }

    /** uninstallCodesigning: reads gpg.program and unsets the three keys only
        when it is set and mentions krgpg. */
    method UninstallCodesigning()
      requires Valid()
      modifies this`gitConfig, this`commands
      ensures Valid()
      ensures gitConfig == Uninstall(old(gitConfig))
      ensures commands == old(commands) + UninstallCommands(old(gitConfig))
    {
      if GpgProgram !in gitConfig {
        return;
      }
      var currentGPGProgram := gitConfig[GpgProgram];
      if !Contains(currentGPGProgram, "krgpg") {
        return;
      }
      UnsetConfig(GpgProgram);
      UnsetConfig(CommitGpgSign);
      UnsetConfig(TagForceSignAnnotated);
      assert old(gitConfig) - {GpgProgram} - {CommitGpgSign} - {TagForceSignAnnotated}
        == old(gitConfig) - {GpgProgram, CommitGpgSign, TagForceSignAnnotated};
    }

    /** addGPG_TTYExportToCurrentShellIfNotPresent: picks the profile from the
        files that exist, then appends the statement unless the file already
        holds it; `openOk` is whether opening the file succeeds. */
    method AddGPGTTYExportToCurrentShellIfNotPresent(shell: string, home: string, openOk: bool)
      returns (path: string, cmd: string)
      modifies this`files
      ensures Profile(path, cmd) == ShellRCFileAndGPGTTYExport(shell, home, old(files).Keys)
      ensures files == PatchFile(old(files), path, cmd, openOk)
    {
      var p := ShellRCFileAndGPGTTYExport(shell, home, files.Keys);
      path, cmd := p.file, p.statement;
      if path in files {
        var rcContents := files[path];
        if Contains(rcContents, cmd) {
          return;
        }
      }
      if !openOk {
        return;
      }
      var content := if path in files then files[path] else "";
      files := files[path := content + Marker + cmd + "\n"];
    }

    /** onboardGPG_TTY: without GPG_TTY, an interactive run only warns and an
        unattended one patches the profile; returns the command line shown. */
    method OnboardGPGTTY(session: Session, openOk: bool) returns (testCommand: string)
      modifies this`files
      ensures files == TtyFiles(old(files), session, openOk)
      ensures testCommand == TestCommand(old(files), session)
    {
      var cmd := "export GPG_TTY=$(tty); ";
      if session.gpgTTY == "" {
        if !session.interactive {
          var _, stmt := AddGPGTTYExportToCurrentShellIfNotPresent(session.shell, session.home, openOk);
          cmd := stmt + "; ";
        }
      } else {
        cmd := "";
      }
      testCommand := cmd + "kr codesign test";
    }

    /** onboardLocalGPG: returns at the first failure; the trust command is fed
        the fingerprint and trust level 6. */
    method OnboardLocalGPG(interactive: bool, confirmed: bool, gpg: GpgEnv, me: Identity)
      returns (result: LocalGpgResult)
      requires Valid()
      modifies this`commands
      ensures Valid()
      ensures result == LocalGpgRun(interactive, confirmed, gpg, me).result
      ensures commands == old(commands) + LocalGpgRun(interactive, confirmed, gpg, me).commands
    {
      if !gpg.hasGPG {
        return NoGpg;
      }
      var importKey := false;
      if interactive {
        if confirmed {
          importKey := true;
        }
      }
      if !(importKey || !interactive) {
        return Declined;
      }
      if me.fingerprint.None? {
        return FingerprintFailed;
      }
      var pkFp := me.fingerprint.value;
      var pk := ArmoredKeyOrEmpty(me);
      RunGpg(GpgImport(pk));
      if !gpg.importOk {
        return ImportFailed;
      }
      RunGpg(GpgImportOwnertrust(pkFp + ":6:\r\n"));
      result := if gpg.trustOk then KeyTrusted else TrustFailed;
    }

    /** The git-facing steps of codesignCommand after its fatal checks, in
        order: link krgpg as gpg.program, the auto-sign step, the local gpg step. */
    method LinkAndImport(me: Identity, krGPGPath: string, interactive: bool, answers: Answers, gpg: GpgEnv)
      returns (localGpg: LocalGpgResult)
      requires Valid()
      modifies this`gitConfig, this`commands
      ensures Valid()
      ensures gitConfig == EnableConfig(old(gitConfig), krGPGPath, interactive, answers.autoSign)
      ensures commands == old(commands) + EnableCommands(krGPGPath, interactive, answers, gpg, me)
      ensures localGpg == LocalGpgRun(interactive, answers.importKey, gpg, me).result
    {
      ghost var log0 := commands;
      ghost var link := [GitConfigSet(GpgProgram, krGPGPath)];
      ghost var auto := AutoSignCommands(interactive, answers.autoSign);
      ghost var local := LocalGpgRun(interactive, answers.importKey, gpg, me).commands;
      SetConfig(GpgProgram, krGPGPath);
      OnboardAutoCommitSign(interactive, answers.autoSign);
      ghost var log1 := commands;
      assert log1 == log0 + link + auto;
      localGpg := OnboardLocalGPG(interactive, answers.importKey, gpg, me);
      assert commands == log1 + local;
      assert EnableCommands(krGPGPath, interactive, answers, gpg, me) == link + auto + local;
      assert log0 + link + auto + local == log0 + (link + auto + local);
    }

    /** The steps of codesignCommand after its fatal checks: the git-facing
        steps, then the GPG_TTY step. */
    method RunOnboarding(session: Session, me: Identity, krGPGPath: string, answers: Answers, gpg: GpgEnv, openOk: bool)
      returns (outcome: EnableOutcome)
      requires Valid()
      modifies this`gitConfig, this`files, this`commands
      ensures Valid()
      ensures gitConfig == EnableConfig(old(gitConfig), krGPGPath, session.interactive, answers.autoSign)
      ensures commands == old(commands) + EnableCommands(krGPGPath, session.interactive, answers, gpg, me)
      ensures outcome == Enabled(LocalGpgRun(session.interactive, answers.importKey, gpg, me).result, TestCommand(old(files), session))
      ensures files == TtyFiles(old(files), session, openOk)
    {
      var localGpg := LinkAndImport(me, krGPGPath, session.interactive, answers, gpg);
      var testCommand := OnboardGPGTTY(session, openOk);
      outcome := Enabled(localGpg, testCommand);
    }

    /** codesignCommand: the fatal checks end the run before anything is
        written; then krgpg is linked and the onboarding steps run in order. */
    method CodesignCommand(session: Session, probe: Probe, answers: Answers, gpg: GpgEnv, openOk: bool)
      returns (outcome: EnableOutcome)
      requires Valid()
      modifies this`gitConfig, this`files, this`commands
      ensures Valid()
      ensures outcome.Fatal? <==> CheckPreconditions(probe).Abort?
      ensures outcome.Fatal? ==>
        && outcome.reason == CheckPreconditions(probe).reason
        && gitConfig == old(gitConfig) && files == old(files) && commands == old(commands)
      ensures outcome.Enabled? ==>
        var go := CheckPreconditions(probe);
        && gitConfig == EnableConfig(old(gitConfig), go.krgpgPath, session.interactive, answers.autoSign)
        && commands == old(commands) + EnableCommands(go.krgpgPath, session.interactive, answers, gpg, go.me)
        && outcome.localGpg == LocalGpgRun(session.interactive, answers.importKey, gpg, go.me).result
        && files == TtyFiles(old(files), session, openOk)
        && outcome.testCommand == TestCommand(old(files), session)
    {
      var preflight := RunPreconditions(probe);
      if preflight.Abort? {
        return Fatal(preflight.reason);
      }
      outcome := RunOnboarding(session, preflight.me, preflight.krgpgPath, answers, gpg, openOk);
    }
  }
}
