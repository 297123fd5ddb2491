/** Choosing the shell startup file and the GPG_TTY statement for the user's
    shell (shellRCFileAndGPG_TTYExport): a chain of rules over the SHELL
    variable, HOME and which files exist, tried in a fixed order. */
module ShellProfile {
  import opened Text

  const ExportPosix := "export GPG_TTY=$(tty)"
  const SetenvCsh := "setenv GPG_TTY `tty`"
  const SetFish := "set -x GPG_TTY (tty)"

  const ZshRc := ".zshrc"
  const BashProfile := ".bash_profile"
  const BashLogin := ".bash_login"
  const BashRc := ".bashrc"
  const KshRc := ".kshrc"
  const CshRc := ".cshrc"
  const FishConfig := ".config/fish/config.fish"
  const DotProfile := ".profile"

  /** A startup file and the line that exports GPG_TTY in that shell's syntax. */
  datatype Profile = Profile(file: string, statement: string)

  function HomePrefix(home: string): string
  {
    if home == [] then [] else if home[|home| - 1] == '/' then home else home + "/"
  }

  /** filepath.Join(home, name) for a relative `name` without "." or ".." parts. */
  function Join(home: string, name: string): string
  {
    HomePrefix(home) + name
  }

  /** Different names under the same home are different paths. */
  lemma JoinInjective(home: string, a: string, b: string)
    requires Join(home, a) == Join(home, b)
    ensures a == b
  {
    var n := |HomePrefix(home)|;
    assert a == Join(home, a)[n..];
    assert b == Join(home, b)[n..];
  }

  /** The profile for `shell` when the paths in `existing` exist, as the source's
      if/else-if chain decides it. */
  function ShellRCFileAndGPGTTYExport(shell: string, home: string, existing: set<string>): Profile
  {
    if Contains(shell, "zsh") then Profile(Join(home, ZshRc), ExportPosix)
    else if Contains(shell, "bash") && Join(home, BashProfile) in existing then Profile(Join(home, BashProfile), ExportPosix)
    else if Contains(shell, "bash") && Join(home, BashLogin) in existing then Profile(Join(home, BashLogin), ExportPosix)
    else if Contains(shell, "bash") && Join(home, BashRc) in existing then Profile(Join(home, BashRc), ExportPosix)
    else if Contains(shell, "ksh") then Profile(Join(home, KshRc), ExportPosix)
    else if Contains(shell, "csh") then Profile(Join(home, CshRc), SetenvCsh)
    else if Contains(shell, "fish") then Profile(Join(home, FishConfig), SetFish)
    else Profile(Join(home, DotProfile), ExportPosix)
  }

  /** Different names under the same home never give the same path. */
  lemma JoinDistinct(home: string, a: string, b: string)
    requires a != b
    ensures Join(home, a) != Join(home, b)
  {
    if Join(home, a) == Join(home, b) {
      JoinInjective(home, a, b);
      assert false;
    }
  }

  /** The syntax of the statement follows from the chosen file alone: `.cshrc`
      gets setenv, fish's config gets `set -x`, every other file `export`. */
  lemma StatementFollowsFile(shell: string, home: string, existing: set<string>)
    ensures var p := ShellRCFileAndGPGTTYExport(shell, home, existing);
      p.statement == (if p.file == Join(home, CshRc) then SetenvCsh
                      else if p.file == Join(home, FishConfig) then SetFish
                      else ExportPosix)
  {
    var p := ShellRCFileAndGPGTTYExport(shell, home, existing);
    if p.statement == ExportPosix {
      var name :| name in [ZshRc, BashProfile, BashLogin, BashRc, KshRc, DotProfile] && p.file == Join(home, name);
      JoinDistinct(home, name, CshRc);
      JoinDistinct(home, name, FishConfig);
    } else if p.statement == SetFish {
      JoinDistinct(home, FishConfig, CshRc);
    }
  }

  /** One row of the ordered shell table: it applies when `name` occurs in SHELL
      and, for a row that needs its file, that file exists. */
  datatype Rule = Rule(name: string, needsFile: bool, file: string, statement: string)

  /** The shell table in the order its rows are tried; `.profile` is the fallback. */
  const Table: seq<Rule> := [
    Rule("zsh", false, ZshRc, ExportPosix),
    Rule("bash", true, BashProfile, ExportPosix),
    Rule("bash", true, BashLogin, ExportPosix),
    Rule("bash", true, BashRc, ExportPosix),
    Rule("ksh", false, KshRc, ExportPosix),
    Rule("csh", false, CshRc, SetenvCsh),
    Rule("fish", false, FishConfig, SetFish)
  ]

  predicate Applies(r: Rule, shell: string, home: string, existing: set<string>)
  {
    Contains(shell, r.name) && (!r.needsFile || Join(home, r.file) in existing)
  }

  /** The first applying row of `rules` decides; with none, `.profile` and `export`. */
  function FirstMatch(rules: seq<Rule>, shell: string, home: string, existing: set<string>): Profile
    decreases |rules|
  {
    if rules == [] then Profile(Join(home, DotProfile), ExportPosix)
    else if Applies(rules[0], shell, home, existing) then Profile(Join(home, rules[0].file), rules[0].statement)
    else FirstMatch(rules[1..], shell, home, existing)
  }

  /** The if/else-if chain is exactly a first-match scan of the ordered table. */
  lemma ShellRCFollowsTable(shell: string, home: string, existing: set<string>)
    ensures ShellRCFileAndGPGTTYExport(shell, home, existing) == FirstMatch(Table, shell, home, existing)
  {
    var t1 := Table[1..];
    var t2 := t1[1..];
    var t3 := t2[1..];
    var t4 := t3[1..];
    var t5 := t4[1..];
    var t6 := t5[1..];
    assert t6[1..] == [];
    var e := existing;
    assert FirstMatch(t6, shell, home, e) ==
      if Contains(shell, "fish") then Profile(Join(home, FishConfig), SetFish)
      else Profile(Join(home, DotProfile), ExportPosix);
    assert FirstMatch(t5, shell, home, e) ==
      if Contains(shell, "csh") then Profile(Join(home, CshRc), SetenvCsh) else FirstMatch(t6, shell, home, e);
    assert FirstMatch(t4, shell, home, e) ==
      if Contains(shell, "ksh") then Profile(Join(home, KshRc), ExportPosix) else FirstMatch(t5, shell, home, e);
    assert FirstMatch(t3, shell, home, e) ==
      if Contains(shell, "bash") && Join(home, BashRc) in e then Profile(Join(home, BashRc), ExportPosix)
      else FirstMatch(t4, shell, home, e);
    assert FirstMatch(t2, shell, home, e) ==
      if Contains(shell, "bash") && Join(home, BashLogin) in e then Profile(Join(home, BashLogin), ExportPosix)
      else FirstMatch(t3, shell, home, e);
    assert FirstMatch(t1, shell, home, e) ==
      if Contains(shell, "bash") && Join(home, BashProfile) in e then Profile(Join(home, BashProfile), ExportPosix)
      else FirstMatch(t2, shell, home, e);
  }

  /** zsh wins whatever files exist. */
  lemma ZshIgnoresFiles(shell: string, home: string, existing: set<string>)
    requires Contains(shell, "zsh")
    ensures ShellRCFileAndGPGTTYExport(shell, home, existing) == Profile(Join(home, ZshRc), ExportPosix)
  {
  }

  /** The bash startup files in order of preference. */
  function BashCandidates(home: string): seq<string>
  {
    [Join(home, BashProfile), Join(home, BashLogin), Join(home, BashRc)]
  }

  /** For bash, the first existing file among .bash_profile, .bash_login, .bashrc. */
  lemma BashPrefersFirstExisting(shell: string, home: string, existing: set<string>, k: nat)
    requires !Contains(shell, "zsh") && Contains(shell, "bash")
    requires k < 3 && BashCandidates(home)[k] in existing
    requires forall j :: 0 <= j < k ==> BashCandidates(home)[j] !in existing
    ensures ShellRCFileAndGPGTTYExport(shell, home, existing) == Profile(BashCandidates(home)[k], ExportPosix)
  {
    if k > 0 { assert BashCandidates(home)[0] !in existing; }
    if k > 1 { assert BashCandidates(home)[1] !in existing; }
  }

  /** For bash without any of its files, the later rows decide, ending in `.profile`. */
  lemma BashWithoutFilesFallsThrough(shell: string, home: string, existing: set<string>)
    requires !Contains(shell, "zsh") && Contains(shell, "bash")
    requires forall j :: 0 <= j < 3 ==> BashCandidates(home)[j] !in existing
    ensures ShellRCFileAndGPGTTYExport(shell, home, existing) == FirstMatch(Table[4..], shell, home, existing)
    ensures !Contains(shell, "ksh") && !Contains(shell, "csh") && !Contains(shell, "fish") ==>
      ShellRCFileAndGPGTTYExport(shell, home, existing) == Profile(Join(home, DotProfile), ExportPosix)
  {
    assert BashCandidates(home)[0] !in existing;
    assert BashCandidates(home)[1] !in existing;
    assert BashCandidates(home)[2] !in existing;
    ShellRCFollowsTable(shell, home, existing);
    var t := Table;
    assert FirstMatch(t[3..], shell, home, existing) == FirstMatch(t[4..], shell, home, existing);
    assert FirstMatch(t[2..], shell, home, existing) == FirstMatch(t[3..], shell, home, existing);
    assert FirstMatch(t[1..], shell, home, existing) == FirstMatch(t[2..], shell, home, existing);
  }

  /** Files other than the three bash files never influence the choice. */
  lemma OnlyBashFilesMatter(shell: string, home: string, e1: set<string>, e2: set<string>)
    requires forall j :: 0 <= j < 3 ==> (BashCandidates(home)[j] in e1 <==> BashCandidates(home)[j] in e2)
    ensures ShellRCFileAndGPGTTYExport(shell, home, e1) == ShellRCFileAndGPGTTYExport(shell, home, e2)
  {
    assert Join(home, BashProfile) in e1 <==> Join(home, BashProfile) in e2 by { assert BashCandidates(home)[0] == Join(home, BashProfile); }
    assert Join(home, BashLogin) in e1 <==> Join(home, BashLogin) in e2 by { assert BashCandidates(home)[1] == Join(home, BashLogin); }
    assert Join(home, BashRc) in e1 <==> Join(home, BashRc) in e2 by { assert BashCandidates(home)[2] == Join(home, BashRc); }
  }

  /** Creating the chosen file does not change the choice, so a second run
      patches the same file. */
  lemma ChoiceStableOnceCreated(shell: string, home: string, existing: set<string>)
    ensures var p := ShellRCFileAndGPGTTYExport(shell, home, existing);
      ShellRCFileAndGPGTTYExport(shell, home, existing + {p.file}) == p
  {
    var p := ShellRCFileAndGPGTTYExport(shell, home, existing);
    forall j | 0 <= j < 3
      ensures BashCandidates(home)[j] in existing <==> BashCandidates(home)[j] in existing + {p.file}
    {
      var c := BashCandidates(home)[j];
      if c == p.file && c !in existing {
        assert false;
      }
    }
    OnlyBashFilesMatter(shell, home, existing, existing + {p.file});
  }

  // The examples below take SHELL as a parameter fixed by their requires, so that
  // the verifier does not unfold Contains on a literal without end.

  /** The bash example: with only `.bashrc` present, `.bashrc` and `export`. */
  lemma BashrcOnlyExample(shell: string)
    requires shell == "/bin/bash"
    ensures ShellRCFileAndGPGTTYExport(shell, "/home/u", {"/home/u/.bashrc"})
      == Profile("/home/u/.bashrc", "export GPG_TTY=$(tty)")
  {
    MissingCharNotContained(shell, "zsh", 0);
    assert Contains(shell, "bash") by { assert OccursAt(shell, "bash", 5); ContainsFromOccurrence(shell, "bash", 5); }
    assert Join("/home/u", BashRc) == "/home/u/.bashrc";
    assert Join("/home/u", BashProfile) != "/home/u/.bashrc";
    assert Join("/home/u", BashLogin) != "/home/u/.bashrc";
  }

  /** bash with none of its files ends at `.profile`. */
  lemma BashWithoutFilesExample(shell: string)
    requires shell == "/bin/bash"
    ensures ShellRCFileAndGPGTTYExport(shell, "/home/u", {}) == Profile("/home/u/.profile", "export GPG_TTY=$(tty)")
  {
    MissingCharNotContained(shell, "zsh", 0);
    MissingCharNotContained(shell, "ksh", 0);
    MissingCharNotContained(shell, "csh", 0);
    MissingCharNotContained(shell, "fish", 0);
    assert Join("/home/u", DotProfile) == "/home/u/.profile";
  }

  /** tcsh is caught by the csh row and gets `setenv`. */
  lemma TcshExample(shell: string)
    requires shell == "/bin/tcsh"
    ensures ShellRCFileAndGPGTTYExport(shell, "/home/u", {}) == Profile("/home/u/.cshrc", "setenv GPG_TTY `tty`")
  {
    MissingCharNotContained(shell, "zsh", 0);
    MissingCharNotContained(shell, "bash", 1);
    MissingCharNotContained(shell, "ksh", 0);
    assert Contains(shell, "csh") by { assert OccursAt(shell, "csh", 6); ContainsFromOccurrence(shell, "csh", 6); }
    assert Join("/home/u", CshRc) == "/home/u/.cshrc";
  }

  /** fish gets its config under `.config/fish` and `set -x`. */
  lemma FishExample(shell: string, home: string)
    requires shell == "/bin/fish"
    ensures ShellRCFileAndGPGTTYExport(shell, home, {}) == Profile(Join(home, FishConfig), SetFish)
  {
    MissingCharNotContained(shell, "zsh", 0);
    MissingCharNotContained(shell, "bash", 1);
    MissingCharNotContained(shell, "ksh", 0);
    MissingCharNotContained(shell, "csh", 0);
    assert OccursAt(shell, "fish", 5);
    ContainsFromOccurrence(shell, "fish", 5);
  }
}
