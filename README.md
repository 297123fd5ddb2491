# kr codesign — a Dafny model

This project models the `kr codesign` family of commands of the Krypton CLI.
The code lives in `src/kr/kr_pgp.go`. These commands link the `krgpg` signing
helper into the user's global git configuration and turn on automatic commit
signing. They can also import the user's PGP public key into the local gpg
keychain, and they make sure the user's shell exports `GPG_TTY`, appending
the export statement to the shell's startup file when needed.

The state these commands change is kept in a class, `Machine.Host`. It has
three fields:

- `gitConfig`: the global git configuration, a map from key to value.
- `files`: the file system, a map from path to content.
- `commands`: the log of state-changing external commands, in the order they
  were run (`git config --global` set and unset, `gpg --import`,
  `gpg --import-ownertrust`). Every gpg command attempted is logged, a failed
  import included. Only the git configuration writes that took effect are
  logged: a failed write of `gpg.program` ends the run with the log unchanged.

Each Go function of the core that changes state is a method of `Host`
with the same branches and early returns. `shellRCFileAndGPG_TTYExport`,
which only computes, is the function
`ShellProfile.ShellRCFileAndGPGTTYExport`. The fatal checks at the start of
`codesignCommand` are the method `Machine.RunPreconditions`, which changes
nothing. Each method is proved against a pure function that
specifies it (`CodesignOff`, `Uninstall`, `AutoCommitSign`, `PatchFile`,
`LocalGpgRun`, …), and lemmas state the promised properties about those
functions. `Host.Valid()` ties the configuration to the log: the
configuration is always what replaying the logged commands makes of the
initial one.

Anything the code learns from outside is an input of the model:

- The environment (`SHELL`, `HOME`, `GPG_TTY`, `--interactive`) is a `Session`.
- The user's answers to the confirm prompts are `Answers`.
- The outcomes of the calls that can abort the run are a `Probe`, in the
  order they are made: whether the latest krd is running; whether
  `checkGitLocation` finds git (in `/usr/bin`, in `/usr/local/bin` or through
  `which git`); the git user id; the identity the phone returns; the output
  of `which krgpg`; and whether writing `gpg.program` succeeds.
- Whether gpg is installed and whether its two commands succeed is a `GpgEnv`.
- Whether opening the startup file succeeds is a boolean `openOk`.

Modules, in dependency order:

- `Text` (text.dfy): `strings.Contains` and `strings.TrimSpace`, with
  `Contains` characterised by substring positions.
- `Wrappers` (wrappers.dfy): `Option`.
- `ShellProfile` (shell.dfy): the choice of startup file and statement, and
  the proof that the if/else-if chain is a first-match scan of an ordered
  shell table.
- `Exec` (exec.dfy): the external commands and their effect on the git
  configuration.
- `GitConfig` (gitconfig.dfy): the configuration changes of on, off,
  auto-sign, uninstall and enable.
- `ProfilePatch` (profile.dfy): appending to the startup file only when the
  statement is not already present.
- `Onboarding` (onboarding.dfy): the fatal checks, the local gpg step, the
  `RUN:` prefix and the order of the enable commands.
- `Machine` (machine.dfy): the class `Host`.

Behaviour of the code worth knowing, which the model follows:

- `kr codesign off` unsets only `commit.gpgSign` (`src/kr/kr_pgp.go:104`).
  `tag.forceSignAnnotated` stays as it was.
- The enable flow never uploads the key to a key server.
  `onboardKeyServerUpload` exists but is not called: the code calls
  `onboardGithub` instead (`src/kr/kr_pgp.go:75`).
- `onboardGithub` calls `confirm` (`src/kr/kr_pgp.go:131`), which prompts the
  user, even in a non-interactive run. So does `checkGitLocation`
  (`src/kr/kr_pgp.go:310`) when git is found only through `which git`.
- The bash startup file is `.bashrc`.
- A failure to write `gpg.program` is fatal (`src/kr/kr_pgp.go:68-71`). The
  model includes this as the last fatal check.
- `checkGitLocation` ends the run fatally when neither `/usr/bin/git` nor
  `/usr/local/bin/git` runs and `which git` fails
  (`src/kr/kr_pgp.go:296-306`). The model includes this as the second fatal
  check, after the krd check.

## Model

| member | source | states |
|---|---|---|
| Text.Contains | src/kr/kr_pgp.go:181-193 | strings.Contains; no contract of its own: ContainsIffOccurs characterises it as "the substring occurs at some position" |
| Text.ContainsIffOccurs | src/kr/kr_pgp.go:204 | strings.Contains holds exactly when the substring occurs at some position, both directions |
| Text.ContainsFromOccurrence | src/kr/kr_pgp.go:325 | any occurrence of "krgpg" (or any substring) at a position makes Contains true |
| Text.MissingCharNotContained | src/kr/kr_pgp.go:181-193 | a shell name is not contained when one of its characters is missing from SHELL |
| Text.TrimLeft | src/kr/kr_pgp.go:66 | leading white space only is dropped: the result is a suffix, the dropped part is all white space, the result does not start with white space |
| Text.TrimRight | src/kr/kr_pgp.go:66 | trailing white space only is dropped: the result is a prefix, the dropped part is all white space, the result does not end with white space |
| Text.TrimSpace | src/kr/kr_pgp.go:66 | the trimmed krgpg path is no longer than the output and neither starts nor ends with white space |
| Text.TrimLeftOfSpaces | src/kr/kr_pgp.go:66 | leading white space before a non-space start is removed exactly |
| Text.TrimRightOfSpaces | src/kr/kr_pgp.go:66 | trailing white space after a non-space end is removed exactly |
| Text.TrimSpaceOfPadded | src/kr/kr_pgp.go:62-66 | the path `which` prints, padded with white space such as its newline, trims back to exactly that path |
| Exec.Apply | src/kr/kr_pgp.go:98-104 | a git config set or unset changes only its own key; gpg commands change no key |
| Exec.Replay | src/kr/kr_pgp.go:68-83 | the configuration after running commands in order; no contract of its own: ReplayConcat and ReplayKeepsUntouched characterise it |
| Exec.ReplayConcat | src/kr/kr_pgp.go:147-155 | running two batches of commands one after the other equals running their concatenation |
| Exec.ReplayKeepsUntouched | src/kr/kr_pgp.go:68-83 | a key no command in the batch names keeps its presence and value |
| GitConfig.CodesignOn | src/kr/kr_pgp.go:97-101 | commit.gpgSign becomes "true" and every other key is unchanged |
| GitConfig.CodesignOff | src/kr/kr_pgp.go:103-107 | commit.gpgSign is removed and every other key, tag.forceSignAnnotated included, is unchanged |
| GitConfig.AutoCommitSign | src/kr/kr_pgp.go:140-162 | when non-interactive or confirmed, both commit.gpgSign and tag.forceSignAnnotated are "true"; otherwise the configuration is unchanged; other keys never change |
| GitConfig.Uninstall | src/kr/kr_pgp.go:320-331 | when gpg.program is set and contains "krgpg" the three keys are removed; otherwise the configuration is unchanged; other keys never change |
| GitConfig.EnableConfig | src/kr/kr_pgp.go:68-79 | after enabling, gpg.program is the krgpg path and keys other than the three are unchanged |
| GitConfig.CodesignOffIdempotent | src/kr/kr_pgp.go:103-107 | disabling twice equals disabling once |
| GitConfig.DisableThenEnable | src/kr/kr_pgp.go:140-155 | disable, then a non-interactive enable, leaves both signing flags "true" |
| GitConfig.UninstallUndoesEnable | src/kr/kr_pgp.go:320-331 | uninstall after an enable with a krgpg path restores every key except the three, which are gone |
| GitConfig.UninstallIdempotent | src/kr/kr_pgp.go:320-331 | a second uninstall changes nothing |
| GitConfig.AutoSignCommands | src/kr/kr_pgp.go:147-155 | the two sets of the auto-sign step, commit flag first, or none; no contract of its own: AutoSignCommandsMatch shows they replay to AutoCommitSign |
| GitConfig.UninstallCommands | src/kr/kr_pgp.go:320-330 | the three unsets of uninstall, in order, or none; no contract of its own: UninstallCommandsMatch shows they replay to Uninstall |
| GitConfig.AutoSignCommandsMatch | src/kr/kr_pgp.go:147-155 | the git commands of the auto-sign step, replayed in order, produce AutoCommitSign |
| GitConfig.UninstallCommandsMatch | src/kr/kr_pgp.go:320-330 | the unset commands of uninstall, replayed in order, produce Uninstall |
| ShellProfile.ShellRCFileAndGPGTTYExport | src/kr/kr_pgp.go:164-198 | the eight-branch chain over SHELL, HOME and the existing files; no contract of its own: ShellRCFollowsTable equates it with the ordered shell table, and the lemmas below state its properties |
| ShellProfile.Join | src/kr/kr_pgp.go:172-180 | filepath.Join(HOME, name) without path cleaning; no contract of its own: JoinInjective gives distinct paths for distinct names |
| Text.IsSpace | src/kr/kr_pgp.go:66 | unicode.IsSpace: tab, LF, VT, FF, CR, space, U+0085, U+00A0 and the White_Space characters above Latin-1 |
| ShellProfile.JoinInjective | src/kr/kr_pgp.go:172-180 | different file names under the same HOME are different paths |
| ShellProfile.ShellRCFollowsTable | src/kr/kr_pgp.go:181-197 | the if/else-if chain equals a first-match scan of the ordered table zsh, bash ×3, ksh, csh, fish with `.profile` as fallback |
| ShellProfile.StatementFollowsFile | src/kr/kr_pgp.go:181-197 | the statement follows from the chosen file alone: `.cshrc` gets setenv, fish's config gets `set -x`, every other file gets `export` (uses JoinInjective for the distinct paths) |
| ShellProfile.ZshIgnoresFiles | src/kr/kr_pgp.go:181-182 | a zsh shell always gets `.zshrc` and `export`, whatever files exist |
| ShellProfile.BashPrefersFirstExisting | src/kr/kr_pgp.go:183-188 | for bash (not zsh), the first existing file among .bash_profile, .bash_login, .bashrc is chosen |
| ShellProfile.BashWithoutFilesFallsThrough | src/kr/kr_pgp.go:183-197 | for bash without any of its files, the later rows decide, ending in `.profile` when no other name matches |
| ShellProfile.OnlyBashFilesMatter | src/kr/kr_pgp.go:181-197 | the choice depends on the existing files only through the three bash files |
| ShellProfile.ChoiceStableOnceCreated | src/kr/kr_pgp.go:181-197 | creating the chosen file does not change the choice |
| ShellProfile.BashrcOnlyExample | src/kr/kr_pgp.go:187-188 | bash with only `.bashrc` present gets `/home/u/.bashrc` and `export GPG_TTY=$(tty)` |
| ShellProfile.BashWithoutFilesExample | src/kr/kr_pgp.go:195-196 | bash with no startup file gets `/home/u/.profile` and `export` |
| ShellProfile.TcshExample | src/kr/kr_pgp.go:191-192 | tcsh matches the csh row: `.cshrc` and `setenv GPG_TTY \`tty\`` |
| ShellProfile.FishExample | src/kr/kr_pgp.go:193-194 | fish gets `.config/fish/config.fish` under HOME and `set -x GPG_TTY (tty)` |
| ProfilePatch.PatchFile | src/kr/kr_pgp.go:200-217 | other files are untouched; the file is never truncated; a file already holding the statement, or one that cannot be opened, is unchanged; otherwise the file becomes its old content (empty when missing) followed by marker, statement and newline |
| ProfilePatch.AppendedContains | src/kr/kr_pgp.go:214 | the appended content holds the statement |
| ProfilePatch.PatchEstablishesStatement | src/kr/kr_pgp.go:208-214 | when the open succeeds, the file exists afterwards and holds the statement |
| ProfilePatch.PatchIdempotent | src/kr/kr_pgp.go:202-206 | a second attempt after a successful one changes nothing, whether or not it could open the file |
| ProfilePatch.AddExportTwiceIsOnce | src/kr/kr_pgp.go:200-217 | choosing the profile and patching it, done twice, equals doing it once: the second run picks the same file and finds the statement |
| Onboarding.CheckPreconditions | src/kr/kr_pgp.go:35-71 | the run proceeds exactly when krd is latest, git is located, the git user id, the identity and its public key exist, `which krgpg` succeeds and gpg.program is written; the path is the trimmed output; each fatal reason is reported exactly when its check is the first to fail, in the order krd, git location, user id, identity, public key, krgpg, link |
| Onboarding.LocalGpgRun | src/kr/kr_pgp.go:257-292 | without gpg or consent nothing runs; with gpg, consent and a fingerprint the import runs, and the trust command follows exactly when the import succeeds; the import is fed the armored key, the trust line is fingerprint + ":6:\r\n"; FingerprintFailed, ImportFailed, TrustFailed and KeyTrusted are each reported exactly when their sub-step is the first to fail, or when all succeed |
| Onboarding.RunPrefix | src/kr/kr_pgp.go:219-233 | the prefix is empty exactly when GPG_TTY is set; interactive without GPG_TTY it is "export GPG_TTY=$(tty); " for every shell; unattended without GPG_TTY it is the patched statement followed by "; " |
| Onboarding.TtyFiles | src/kr/kr_pgp.go:219-230 | the files change only when GPG_TTY is unset and the run is not interactive |
| Onboarding.TestCommand | src/kr/kr_pgp.go:219-236 | the RUN line shown; no contract of its own: PrefixMatchesPatchedProfile, InteractiveShowsPosixPrefix and RunPrefix give it in each case |
| Onboarding.EnableCommands | src/kr/kr_pgp.go:68-81 | the commands of a successful enable: link, then the auto-sign step, then the local gpg step; no contract of its own: EnableCommandsMatchConfig and SigningProgramLinkedThroughout characterise it |
| Onboarding.GpgCommandsKeepConfig | src/kr/kr_pgp.go:275-285 | gpg commands leave the git configuration as it was |
| Onboarding.EnableCommandsMatchConfig | src/kr/kr_pgp.go:68-81 | the commands of a successful enable, replayed in order, produce EnableConfig |
| Onboarding.SigningProgramLinkedThroughout | src/kr/kr_pgp.go:68-81 | after every command of the enable run, gpg.program already names the krgpg path, so signing is never switched on before krgpg is linked |
| Onboarding.PrefixMatchesPatchedProfile | src/kr/kr_pgp.go:227-235 | unattended without GPG_TTY, the RUN line shows the chosen statement, and the profile holds that statement when it could be opened |
| Onboarding.InteractiveShowsPosixPrefix | src/kr/kr_pgp.go:220-226 | an interactive run without GPG_TTY writes no file and shows "export GPG_TTY=$(tty); kr codesign test", whatever the shell |
| Onboarding.TtyStepRerunnable | src/kr/kr_pgp.go:219-237 | re-running the GPG_TTY step after a successful patch writes nothing and shows the same command line |
| Machine.RunPreconditions | src/kr/kr_pgp.go:35-71 | the checks, made one after the other with an early return each, give exactly CheckPreconditions of the outcomes |
| Machine.Host.SetConfig | src/kr/kr_pgp.go:68 | `git config --global key value` sets the key and logs the command, keeping the configuration equal to the replayed log |
| Machine.Host.UnsetConfig | src/kr/kr_pgp.go:104 | `git config --global --unset key` removes the key (a missing key stays missing) and logs the command |
| Machine.Host.RunGpg | src/kr/kr_pgp.go:275-285 | a gpg command is logged and leaves the configuration alone |
| Machine.Host.CodesignOnCommand | src/kr/kr_pgp.go:97-101 | the new configuration is CodesignOn of the old one, after one logged set |
| Machine.Host.CodesignOffCommand | src/kr/kr_pgp.go:103-107 | the new configuration is CodesignOff of the old one, after one logged unset |
| Machine.Host.OnboardAutoCommitSign | src/kr/kr_pgp.go:140-162 | the new configuration is AutoCommitSign of the old one, commit flag set before tag flag |
| Machine.Host.UninstallCodesigning | src/kr/kr_pgp.go:320-331 | the new configuration is Uninstall of the old one, and the three unsets are logged only when gpg.program mentions krgpg |
| Machine.Host.AddGPGTTYExportToCurrentShellIfNotPresent | src/kr/kr_pgp.go:200-217 | returns the profile chosen from the files that exist beforehand and leaves the files as PatchFile makes them |
| Machine.Host.OnboardGPGTTY | src/kr/kr_pgp.go:219-237 | the files become TtyFiles of the old ones and the returned RUN line is the prefix followed by `kr codesign test` |
| Machine.Host.OnboardLocalGPG | src/kr/kr_pgp.go:257-292 | the result and the logged commands are those of LocalGpgRun, and the git configuration is unchanged |
| Machine.Host.LinkAndImport | src/kr/kr_pgp.go:68-81 | gpg.program is linked, then the auto-sign step and the local gpg step run; the configuration is EnableConfig and the log grows by EnableCommands |
| Machine.Host.RunOnboarding | src/kr/kr_pgp.go:68-83 | after the checks: the configuration is EnableConfig, the log grows by EnableCommands, the files become TtyFiles, and the outcome carries LocalGpgRun's result and the RUN line |
| Machine.Host.CodesignCommand | src/kr/kr_pgp.go:35-86 | it ends fatally exactly when a check fails, with the first failing reason and nothing changed; otherwise configuration, log, files, gpg result and RUN line are those of the enable specification |

## Left out

- The agent version check, the git user id lookup (`globalGitUserIDOrFatal`), the identity request and `which krgpg` are outside calls. Only their outcomes are modelled, as the `Probe` input.
- `checkGitLocation` is modelled only through its fatal outcome (`Probe.gitLocated`). Its offer to link git into `/usr/local/bin` (the confirm prompt at `src/kr/kr_pgp.go:310` and `ln -s`) is left out: it changes neither the git configuration nor the user's startup files.
- `onboardGithub` and `copyPGPKey` are left out: the prompt, the clipboard, the one-second sleep, the wait for ENTER and the browser. They change none of the modelled state.
- `onboardKeyServerUpload` is left out: nothing in kr_pgp.go calls it.
- `codesignTestCommand` is left out. It creates a temporary repository and runs a signed commit, which is process execution only.
- The `codesignUninstallCommand` wrapper is left out. It calls `uninstallCodesigning` and prints a message.
- The analytics goroutine, every message written to standard error, colours, and the 500 ms sleep are left out.
- The interactive GPG_TTY warning's wait for ENTER is left out. Confirm prompts are modelled only through their answers.
- Machine.Host.OnboardAutoCommitSign: assumes each `git config` write succeeds. The source reports a failed write and goes on, so a failure would leave one flag unset.
- Machine.Host.CodesignOnCommand: assumes the `git config` write succeeds; the source ignores its error.
- Machine.Host.CodesignOffCommand: assumes the unset succeeds. Unsetting a missing key is modelled as leaving it missing.
- Machine.Host.UninstallCodesigning: a failed read of gpg.program is modelled as the key being absent. The three unsets are assumed to succeed, since the source ignores their errors.
- Git treats configuration keys case-insensitively (`commit.gpgSign` and `commit.gpgsign` are one key). The model compares keys as exact strings.
- ShellProfile.Join: models `filepath.Join(HOME, name)` as HOME, then a `/` when HOME is non-empty and does not end in one, then the name; an empty HOME gives the name alone, as in Go. The path cleaning `filepath.Join` does (repeated slashes, `.` and `..` in HOME) is not modelled.
- ProfilePatch.PatchFile: an existing file is assumed readable, so a read error on an existing file is not modelled. Neither are the 0755 mode of a created file, a short write, or the ignored errors of `Seek`, `WriteString` and `Close`.
- Strings are sequences of characters. The byte-level effect of invalid UTF-8 in SHELL, in the startup file or in the `which` output is not modelled.
