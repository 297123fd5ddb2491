/** The changes the codesign commands make to the global git configuration,
    as functions of the configuration before them. */
module GitConfig {
  import opened Text
  import opened Exec

  const GpgProgram := "gpg.program"
  const CommitGpgSign := "commit.gpgSign"
  const TagForceSignAnnotated := "tag.forceSignAnnotated"

  /** `a` and `b` agree on `key`: both lack it, or both hold the same value. */
  ghost predicate SameAt(a: Config, b: Config, key: string)
  {
    (key in a <==> key in b) && (key in a ==> a[key] == b[key])
  }

  /** `kr codesign on`: commit.gpgSign becomes "true", nothing else changes. */
  function CodesignOn(cfg: Config): (r: Config)
    ensures CommitGpgSign in r && r[CommitGpgSign] == "true"
    ensures forall k :: k != CommitGpgSign ==> SameAt(cfg, r, k)
  {
    cfg[CommitGpgSign := "true"]
  }

  /** `kr codesign off`: only commit.gpgSign goes away; tag.forceSignAnnotated and
      every other key stay as they were. */
  function CodesignOff(cfg: Config): (r: Config)
    ensures CommitGpgSign !in r
    ensures forall k :: k != CommitGpgSign ==> SameAt(cfg, r, k)
  {
    cfg - {CommitGpgSign}
  }

  /** Whether onboardAutoCommitSign turns signing on: always when not interactive,
      otherwise only when the user confirms. */
  predicate AutoSignChosen(interactive: bool, confirmed: bool)
  {
    !interactive || confirmed
  }

  /** onboardAutoCommitSign: both flags become "true" when chosen; otherwise the
      configuration is left alone. */
  function AutoCommitSign(cfg: Config, interactive: bool, confirmed: bool): (r: Config)
    ensures AutoSignChosen(interactive, confirmed) ==>
      && CommitGpgSign in r && r[CommitGpgSign] == "true"
      && TagForceSignAnnotated in r && r[TagForceSignAnnotated] == "true"
    ensures forall k :: k != CommitGpgSign && k != TagForceSignAnnotated ==> SameAt(cfg, r, k)
    ensures !AutoSignChosen(interactive, confirmed) ==> r == cfg
  {
    if AutoSignChosen(interactive, confirmed) then cfg[CommitGpgSign := "true"][TagForceSignAnnotated := "true"]
    else cfg
  }

  /** The commands onboardAutoCommitSign runs, commit flag first. */
  function AutoSignCommands(interactive: bool, confirmed: bool): seq<Command>
  {
    if AutoSignChosen(interactive, confirmed) then
      [GitConfigSet(CommitGpgSign, "true"), GitConfigSet(TagForceSignAnnotated, "true")]
    else []
  }

  /** uninstallCodesigning acts only when gpg.program is set and mentions krgpg. */
  predicate ConfiguredForKrgpg(cfg: Config)
  {
    GpgProgram in cfg && Contains(cfg[GpgProgram], "krgpg")
  }

  /** uninstallCodesigning: the three keys go away when gpg.program is krgpg's;
      a signing program configured by someone else keeps everything as it was. */
  function Uninstall(cfg: Config): (r: Config)
    ensures ConfiguredForKrgpg(cfg) ==>
      GpgProgram !in r && CommitGpgSign !in r && TagForceSignAnnotated !in r
    ensures forall k :: k != GpgProgram && k != CommitGpgSign && k != TagForceSignAnnotated ==> SameAt(cfg, r, k)
    ensures !ConfiguredForKrgpg(cfg) ==> r == cfg
  {
    if ConfiguredForKrgpg(cfg) then cfg - {GpgProgram, CommitGpgSign, TagForceSignAnnotated} else cfg
  }

  /** The commands uninstallCodesigning runs, in its order. */
  function UninstallCommands(cfg: Config): seq<Command>
  {
    if ConfiguredForKrgpg(cfg) then
      [GitConfigUnset(GpgProgram), GitConfigUnset(CommitGpgSign), GitConfigUnset(TagForceSignAnnotated)]
    else []
  }

  /** The configuration after a successful `kr codesign`: gpg.program is the
      krgpg path, then the auto-sign step runs. */
  function EnableConfig(cfg: Config, krgpgPath: string, interactive: bool, confirmed: bool): (r: Config)
    ensures GpgProgram in r && r[GpgProgram] == krgpgPath
    ensures forall k :: k != GpgProgram && k != CommitGpgSign && k != TagForceSignAnnotated ==> SameAt(cfg, r, k)
  {
    AutoCommitSign(cfg[GpgProgram := krgpgPath], interactive, confirmed)
  }

  /** `kr codesign off` twice is `kr codesign off` once. */
  lemma CodesignOffIdempotent(cfg: Config)
    ensures CodesignOff(CodesignOff(cfg)) == CodesignOff(cfg)
  {
  }

  /** Off then a non-interactive enable leaves both signing flags "true". */
  lemma DisableThenEnable(cfg: Config, krgpgPath: string, confirmed: bool)
    ensures var r := EnableConfig(CodesignOff(cfg), krgpgPath, false, confirmed);
      r[CommitGpgSign] == "true" && r[TagForceSignAnnotated] == "true"
  {
  }

  /** Uninstalling after an enable whose krgpg path mentions krgpg removes exactly
      the three keys: the rest of the configuration is what it was before enabling. */
  lemma UninstallUndoesEnable(cfg: Config, krgpgPath: string, interactive: bool, confirmed: bool)
    requires Contains(krgpgPath, "krgpg")
    ensures Uninstall(EnableConfig(cfg, krgpgPath, interactive, confirmed))
      == cfg - {GpgProgram, CommitGpgSign, TagForceSignAnnotated}
  {
    var r := Uninstall(EnableConfig(cfg, krgpgPath, interactive, confirmed));
    var expected := cfg - {GpgProgram, CommitGpgSign, TagForceSignAnnotated};
    forall k ensures k in r <==> k in expected { }
    assert r.Keys == expected.Keys;
  }

  /** A second uninstall changes nothing. */
  lemma UninstallIdempotent(cfg: Config)
    ensures Uninstall(Uninstall(cfg)) == Uninstall(cfg)
  {
  }

  /** The auto-sign commands, run on a configuration, give AutoCommitSign of it. */
  lemma AutoSignCommandsMatch(cfg: Config, interactive: bool, confirmed: bool)
    ensures Replay(cfg, AutoSignCommands(interactive, confirmed)) == AutoCommitSign(cfg, interactive, confirmed)
  {
    var cmds := AutoSignCommands(interactive, confirmed);
    if AutoSignChosen(interactive, confirmed) {
      var c1 := cfg[CommitGpgSign := "true"];
      assert Replay(cfg, cmds) == Replay(c1, cmds[1..]);
      assert Replay(c1, cmds[1..]) == Replay(c1[TagForceSignAnnotated := "true"], cmds[1..][1..]);
      assert cmds[1..][1..] == [];
    }
  }

  /** The uninstall commands, run on a configuration, give Uninstall of it. */
  lemma UninstallCommandsMatch(cfg: Config)
    ensures Replay(cfg, UninstallCommands(cfg)) == Uninstall(cfg)
  {
    var cmds := UninstallCommands(cfg);
    if ConfiguredForKrgpg(cfg) {
      var c1 := cfg - {GpgProgram};
      var c2 := c1 - {CommitGpgSign};
      assert Replay(cfg, cmds) == Replay(c1, cmds[1..]);
      assert Replay(c1, cmds[1..]) == Replay(c2, cmds[1..][1..]);
      assert Replay(c2, cmds[1..][1..]) == Replay(c2 - {TagForceSignAnnotated}, cmds[1..][1..][1..]);
      assert cmds[1..][1..][1..] == [];
      assert cfg - {GpgProgram} - {CommitGpgSign} - {TagForceSignAnnotated}
        == cfg - {GpgProgram, CommitGpgSign, TagForceSignAnnotated};
    }
  }
}
