/** Appending the GPG_TTY statement to the shell startup file unless it is
    already there (addGPG_TTYExportToCurrentShellIfNotPresent), over a file
    system modelled as a map from path to content. */
module ProfilePatch {
  import opened Text
  import opened ShellProfile

  /** Path to content; a path in the map is a file that exists and can be read. */
  type Files = map<string, string>

  /** The comment line written before the statement. */
  const Marker := "\n# Added by Krypton\n"

  /** The content of `path` as read, a missing file reading as empty. */
  function ContentOf(files: Files, path: string): string
  {
    if path in files then files[path] else ""
  }

  /** The content after the append: marker, statement and a final newline. */
  function Appended(content: string, stmt: string): string
  {
    content + Marker + stmt + "\n"
  }

  /** The file system after one attempt to add `stmt` to `path`; `openOk` is
      whether opening `path` for read/write (creating it if missing) succeeds. */
  function PatchFile(files: Files, path: string, stmt: string, openOk: bool): (r: Files)
    ensures forall p :: p != path ==> (p in r <==> p in files) && (p in r ==> r[p] == files[p])
    ensures path in files ==> path in r && files[path] <= r[path]
    ensures path in files && Contains(files[path], stmt) ==> r == files
    ensures !openOk ==> r == files
    ensures openOk && !(path in files && Contains(files[path], stmt)) ==>
      r == files[path := Appended(ContentOf(files, path), stmt)]
  {
    if path in files && Contains(files[path], stmt) then files
    else if !openOk then files
    else files[path := Appended(ContentOf(files, path), stmt)]
  }

  /** The appended content holds the statement. */
  lemma AppendedContains(content: string, stmt: string)
    ensures Contains(Appended(content, stmt), stmt)
  {
    var s := Appended(content, stmt);
    var i := |content + Marker|;
    assert s[i..i + |stmt|] == stmt;
    ContainsFromOccurrence(s, stmt, i);
  }

  /** When the open succeeds, the file afterwards exists and holds the statement. */
  lemma PatchEstablishesStatement(files: Files, path: string, stmt: string)
    ensures var r := PatchFile(files, path, stmt, true);
      path in r && Contains(r[path], stmt)
  {
    AppendedContains(ContentOf(files, path), stmt);
  }

  /** A second attempt after a successful one changes nothing, whether or not
      its own open would succeed. */
  lemma PatchIdempotent(files: Files, path: string, stmt: string, secondOpenOk: bool)
    ensures var once := PatchFile(files, path, stmt, true);
      PatchFile(once, path, stmt, secondOpenOk) == once
  {
    PatchEstablishesStatement(files, path, stmt);
  }

  /** The whole operation (choose the profile from the files that exist, then
      patch it) run twice is the operation run once: the second run picks the
      same profile and finds the statement in it. */
  lemma AddExportTwiceIsOnce(files: Files, shell: string, home: string, secondOpenOk: bool)
    ensures var p := ShellRCFileAndGPGTTYExport(shell, home, files.Keys);
      var once := PatchFile(files, p.file, p.statement, true);
      && ShellRCFileAndGPGTTYExport(shell, home, once.Keys) == p
      && PatchFile(once, p.file, p.statement, secondOpenOk) == once
  {
    var p := ShellRCFileAndGPGTTYExport(shell, home, files.Keys);
    var once := PatchFile(files, p.file, p.statement, true);
    PatchEstablishesStatement(files, p.file, p.statement);
    assert once.Keys == files.Keys + {p.file};
    ChoiceStableOnceCreated(shell, home, files.Keys);
    PatchIdempotent(files, p.file, p.statement, secondOpenOk);
  }
}
