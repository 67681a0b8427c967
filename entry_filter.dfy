/** check_entry and recurse_directory: the per-entry decisions of the walk. The name test is
    fnmatch(pattern, name, FNM_PERIOD) == 0, passed in as the predicate `matches`. */
module EntryFilter {
  import opened Wrappers
  import opened FileModes

  /** The "current directory" and "parent directory" entries. */
  predicate IsPseudo(name: string) {
    name == "." || name == ".."
  }

  /** check_entry(findme, type, dirname, fname, mode). Its tests run in order and stop at
      the first failure: the pattern, if any, must match the name; a non-zero type must equal
      the mode's type bits; and "." or ".." is kept only when the directory argument is that
      very string. */
  function CheckEntry(findme: Option<string>, typ: int, dirname: string, fname: string,
                      mode: bv32, matches: (string, string) -> bool): (r: bool)
    ensures findme.Some? && !matches(findme.value, fname) ==> !r
    ensures typ != 0 && FileTypeBits(mode) != AsUnsigned(typ) ==> !r
    ensures IsPseudo(fname) && fname != dirname ==> !r
    ensures ((findme.None? || matches(findme.value, fname)) &&
             (typ == 0 || FileTypeBits(mode) == AsUnsigned(typ)) &&
             (!IsPseudo(fname) || fname == dirname)) ==> r
  {
    if findme.Some? && !matches(findme.value, fname) then false
    else if typ != 0 && FileTypeBits(mode) != AsUnsigned(typ) then false
    else if fname == ".." && fname != dirname then false
    else if fname == "." && fname != dirname then false
    else true
  }

  /** recurse_directory(name, mode): descend into directories other than "." and "..". */
  function RecurseDirectory(name: string, mode: bv32): (r: bool)
    ensures r <==> IsDir(mode) && !IsPseudo(name)
  {
    if !IsDir(mode) || name == "." || name == ".." then false else true
  }

  /** Without a pattern or a type every entry is kept, except "." and ".." found in a
      directory whose argument is not that same string. */
  lemma NoCriteriaKeepsAllButPseudo(dirname: string, fname: string, mode: bv32,
                                    matches: (string, string) -> bool)
    ensures CheckEntry(None, 0, dirname, fname, mode, matches) <==>
      (!IsPseudo(fname) || fname == dirname)
  {
  }

  /** Every directory the walk descends into is reported under "-type d" with no pattern. */
  lemma RecursedDirectoriesMatchTypeD(dirname: string, name: string, mode: bv32,
                                      matches: (string, string) -> bool)
    requires RecurseDirectory(name, mode)
    ensures CheckEntry(None, S_IFDIR, dirname, name, mode, matches)
  {
  }
}
