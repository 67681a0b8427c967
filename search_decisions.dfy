/** How the pieces meet in the walk: process_file checks the start path against itself, and
    process_dir checks each entry against the directory path it was read from, which for a
    subdirectory is a path built by construct_path. */
module SearchDecisions {
  import opened Wrappers
  import opened FileModes
  import opened PathBuilder
  import opened EntryFilter
  import opened ArgumentInterpreter

  /** A start path that cannot be opened as a directory and is not one (process_file) is
      passed as both the directory and the entry name, so the pseudo-entry rule never
      applies to it: it is judged by the pattern and the type alone. */
  lemma StartPathJudgedByCriteriaOnly(findme: Option<string>, typ: int, path: string, mode: bv32,
                                      matches: (string, string) -> bool)
    ensures CheckEntry(findme, typ, path, path, mode, matches) <==>
      (findme.None? || matches(findme.value, path)) &&
      (typ == 0 || FileTypeBits(mode) == AsUnsigned(typ))
  {
  }

  /** "pfind ." without criteria: enumerating "." (process_dir) reports its "." entry under
      the path "." and never reports its ".." entry (built as "./.."). This is also why
      "pfind . -name ." reports ".". */
  lemma StartDirectoryDot(mode: bv32, matches: (string, string) -> bool)
    ensures JoinPath(".", ".") == "." && CheckEntry(None, 0, ".", ".", mode, matches)
    ensures JoinPath(".", "..") == "./.." && !CheckEntry(None, 0, ".", "..", mode, matches)
  {
  }

  /** A directory start path other than "." is not reported through its own "." entry:
      that entry is built as a different path and rejected by the pseudo-entry rule. So
      "pfind foo" does not print "foo" for the directory foo itself. */
  lemma StartDirectoryNotReportedAsDot(path: string, findme: Option<string>, typ: int,
                                       mode: bv32, matches: (string, string) -> bool)
    requires |path| > 0 && path != "."
    ensures JoinPath(path, ".") != path
    ensures !CheckEntry(findme, typ, path, ".", mode, matches)
  {
  }

  /** An entry whose name equals the path of the directory being read is given that same
      path, since construct_path returns the parent for identical strings; if it is a
      directory, the walk searches the same path again. For a directory "foo" holding a
      directory "foo", "pfind foo" re-enters "foo" instead of visiting "foo/foo". */
  lemma SameNameSubdirectoryReentered(dirname: string, mode: bv32)
    requires |dirname| > 0 && !IsPseudo(dirname) && IsDir(mode)
    ensures JoinPath(dirname, dirname) == dirname
    ensures RecurseDirectory(dirname, mode)
  {
  }

  /** The path of a directory the walk descends into is never "." or "..". */
  lemma SubdirectoryPathNotPseudo(parent: string, child: string, mode: bv32)
    requires parent == child || |parent| > 0
    requires RecurseDirectory(child, mode)
    ensures !IsPseudo(JoinPath(parent, child))
  {
  }

  /** While a subdirectory is enumerated its "." and ".." entries are never reported,
      whatever the criteria. */
  lemma PseudoEntriesOfSubdirectoryNotReported(parent: string, child: string, mode: bv32,
                                               findme: Option<string>, typ: int, entry: string,
                                               entryMode: bv32, matches: (string, string) -> bool)
    requires parent == child || |parent| > 0
    requires RecurseDirectory(child, mode)
    requires IsPseudo(entry)
    ensures !CheckEntry(findme, typ, JoinPath(parent, child), entry, entryMode, matches)
  {
  }

  /** Type filter exactness: with "-type c" for any of the seven letters, every reported
      entry has exactly that type field. */
  lemma TypeFilterExact(c: char, findme: Option<string>, dirname: string, fname: string,
                        mode: bv32, matches: (string, string) -> bool)
    requires GetType(c).Ok?
    requires CheckEntry(findme, GetType(c).value, dirname, fname, mode, matches)
    ensures FileTypeBits(mode) == GetType(c).value
  {
  }
}
