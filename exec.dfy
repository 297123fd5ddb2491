/** The external commands the codesign flow runs that change state outside the
    process, in the order it runs them, and their effect on the global git
    configuration. */
module Exec {

  /** The global git configuration: key to value. */
  type Config = map<string, string>

  datatype Command =
    | GitConfigSet(key: string, value: string)   // git config --global <key> <value>
    | GitConfigUnset(key: string)                // git config --global --unset <key>
    | GpgImport(stdin: string)                   // gpg --import --armor, fed the armored key
    | GpgImportOwnertrust(stdin: string)         // gpg --import-ownertrust, fed the trust line

  /** Whether running `c` can change `key` in the git configuration. */
  predicate Touches(c: Command, key: string)
  {
    (c.GitConfigSet? || c.GitConfigUnset?) && c.key == key
  }

  /** The git configuration after one command; unsetting a missing key changes nothing. */
  function Apply(cfg: Config, c: Command): (r: Config)
    ensures forall k :: !Touches(c, k) ==> (k in r <==> k in cfg) && (k in r ==> r[k] == cfg[k])
  {
    match c
    case GitConfigSet(k, v) => cfg[k := v]
    case GitConfigUnset(k) => cfg - {k}
    case GpgImport(_) => cfg
    case GpgImportOwnertrust(_) => cfg
  }

  /** The git configuration after running `cmds` in order. */
  function Replay(cfg: Config, cmds: seq<Command>): Config
    decreases |cmds|
  {
    if cmds == [] then cfg else Replay(Apply(cfg, cmds[0]), cmds[1..])
  }

  /** Running two batches one after the other is running their concatenation. */
  lemma {:induction false} ReplayConcat(cfg: Config, a: seq<Command>, b: seq<Command>)
    ensures Replay(cfg, a + b) == Replay(Replay(cfg, a), b)
    decreases |a|
  {
    if a != [] {
      assert (a + b)[0] == a[0];
      assert (a + b)[1..] == a[1..] + b;
      assert Replay(cfg, a + b) == Replay(Apply(cfg, a[0]), a[1..] + b);
      ReplayConcat(Apply(cfg, a[0]), a[1..], b);
    } else {
      assert a + b == b;
    }
  }

  /** A key that no command touches keeps its presence and its value. */
  lemma {:induction false} ReplayKeepsUntouched(cfg: Config, cmds: seq<Command>, key: string)
    requires forall i :: 0 <= i < |cmds| ==> !Touches(cmds[i], key)
    ensures key in Replay(cfg, cmds) <==> key in cfg
    ensures key in cfg ==> Replay(cfg, cmds)[key] == cfg[key]
    decreases |cmds|
  {
    if cmds != [] {
      assert !Touches(cmds[0], key);
      ReplayKeepsUntouched(Apply(cfg, cmds[0]), cmds[1..], key);
    }
  }
}
