# pfind decision logic in Dafny

pfind is a small `find` clone: `pfind <start_path> [-name <pattern>] [-type <c>]` walks a
directory tree depth-first and prints every entry that matches an optional shell pattern
and an optional file type. This project models the decision logic of `pfind.c` and proves
what it promises:

- **Path joining** (`construct_path`): the path of a directory entry, built from the
  directory's path and the entry's name (module `PathBuilder`, `path_builder.dfy`).
- **Entry filtering** (`check_entry`, `recurse_directory`): whether an entry is printed, and
  whether the walk descends into it (module `EntryFilter`, `entry_filter.dfy`). The
  `fnmatch(pattern, name, FNM_PERIOD) == 0` test is a predicate parameter `matches`.
- **File types** (`get_type`): the seven `-type` letters and their `<sys/stat.h>` codes,
  with the conventional Linux values (`FileModes`, `file_modes.dfy`, and
  `ArgumentInterpreter.GetType`). A `mode_t` is a `bv32`.
- **Argument interpretation** (`main`'s loop, `get_path`, `get_option`, `type_error`):
  the command line after the program name becomes a start path, an optional pattern and a
  type code (0 = unset), or one of the fatal errors `Usage`, `PathsMustPrecede(tok)`,
  `MissingArg(opt)`, `AlreadyDeclared(opt)`, `UnknownPredicate(opt)`, `UnknownType(c)`
  (`ArgumentInterpreter`, `argument_interpreter.dfy`). `Interpret` is the reference
  definition over option/value pairs. `ParseArgs`, `GetPath` and `GetOption` are the
  imperative versions: a cursor walks the argument list, and the state variables `path`,
  `name` and `type` are updated as the source updates them through its out-pointers. Each
  is proved equal to the reference. The properties of the reference are proved in
  `ArgumentProperties` (`argument_properties.dfy`).
- **Where the pieces meet** (`SearchDecisions`, `search_decisions.dfy`): the calls that
  `process_file` and `process_dir` make to the filter. These give the start-path rule,
  the rule for "." and ".." in subdirectories, and the exactness of the type filter.

C strings are `seq<char>` holding the characters before the terminating NUL; each Dafny
`char` stands for one C byte. Where the source reads the terminating NUL itself, which lies
past the end of the Dafny sequence, the model reads `'\0'`: `value[0]` of an empty `-type`
value, or `child[0]` of an empty name.

One behaviour of the source follows from `construct_path` returning the parent unchanged
when parent and child are the same string. An entry whose name equals the path of the
directory being read gets that same path. If it is a directory, the walk searches that
path again instead of descending into it. For a directory `foo` holding a directory
`foo`, `pfind foo` re-enters `foo` and never visits `foo/foo`
(`SearchDecisions.SameNameSubdirectoryReentered`).

## Model

| member | source | states |
|---|---|---|
| `PathBuilder.JoinPath` | pfind.c:429-435 | identical parent and child give the parent; otherwise the result is the parent, then at most one '/', then the child, and the '/' is added exactly when the parent does not end with one and the child does not start with one |
| `PathBuilder.ConstructPath` | pfind.c:419-445 | the result is present exactly when malloc succeeded, so the overflow test never fires; the path fits in the buffer of size 2 + both lengths |
| `PathBuilder.BasenameOfJoin` | pfind.c:430-435 | splitting a built path gives back the entry name: the last component of the joined path is the child, for a non-empty name without '/', including when the child equals the parent |
| `PathBuilder.DoubleSlashKept` | pfind.c:430-435 | "usr/" + "/lib" gives "usr//lib" (no collapse), "usr" + "lib" gives "usr/lib", and "." joined with "." gives "." |
| `FileModes.FileTypeBits` | pfind.c:248 | `S_IFMT & mode` is a multiple of 0x1000 no larger than the mask |
| `FileModes.AsUnsigned` | pfind.c:248 | `(unsigned) type` lies in 32 bits and leaves a value already in range unchanged |
| `ArgumentInterpreter.GetType` | pfind.c:379-401 | succeeds exactly for b, c, d, f, l, p, s, with a non-zero code that is a pure file-type field; every other character is `UnknownType(c)` |
| `ArgumentInterpreter.TypeLetterRoundTrip` | pfind.c:381-395 | get_type and the letter-of-a-code map are inverse on the seven letters |
| `ArgumentInterpreter.GetTypeInjective` | pfind.c:381-395 | distinct letters give distinct codes |
| `ArgumentInterpreter.ValueAfter` | pfind.c:297-298 | the value is the next token, absent exactly when the option is the last token |
| `ArgumentInterpreter.TypeError` | pfind.c:485-502 | -name or -type with a value after it is "already declared", without one "missing argument"; any other option is "unknown predicate" |
| `ArgumentInterpreter.OptionStep` | pfind.c:295-323 | the rules of get_option: a first -name takes the next token verbatim; a first -type takes the code of its value's first letter; a repeat is "already declared", or "missing argument" at the end; a first occurrence at the end is "missing argument"; anything else is "unknown predicate"; success needs a value |
| `ArgumentInterpreter.Options` | pfind.c:95-98 | applies the get_option rules pair by pair and the first error ends it; success uses up whole pairs, and its errors are never the usage error or a misplaced path |
| `ArgumentInterpreter.LeadingOptions` | pfind.c:345-363 | reads leading options until a token without '-'; it names that token in "paths must precede expression", or gives a usage error when no token is left; the token it names never starts with '-' (its position is `LeadingPathFound`) |
| `ArgumentInterpreter.Interpret` | pfind.c:86-104 | no arguments or more than five is a usage error; a first argument starting with '-' always fails; a success has the first argument as its path |
| `ArgumentInterpreter.GetOption` | pfind.c:295-323 | the new name and type, or the error, are those the get_option rules prescribe |
| `ArgumentInterpreter.GetPath` | pfind.c:341-367 | a first token without '-' is the path; otherwise the loop over leading options ends in their first error, in "paths must precede expression" on the first token without '-', or in a usage error |
| `ArgumentInterpreter.ParseArgs` | pfind.c:79-104 | main's cursor loop over the arguments yields exactly the reference interpretation |
| `ArgumentProperties.OptionsSound` | pfind.c:91-99 | an accepted option list is made of pairs, with only -name and -type, neither repeated; each recorded value is the token after its option; an absent option leaves its state unchanged |
| `ArgumentProperties.OptionsComplete` | pfind.c:301-315 | every well-formed list of not-yet-seen options is accepted |
| `ArgumentProperties.InterpretSucceedsIff` | pfind.c:88-104 | a command line is accepted if and only if it has 1 to 5 arguments, the first not starting with '-', and the rest a well-formed option list |
| `ArgumentProperties.InterpretResult` | pfind.c:301-312 | the path is the first argument; the pattern is the token after -name and absent iff -name does not occur; the type is the code of the letter after -type and 0 iff -type does not occur |
| `ArgumentProperties.LeadingOptionsUsage` | pfind.c:348-363 | the option-first loop ends in the usage error exactly when the options it reads would all be accepted |
| `ArgumentProperties.OptionFirstUsage` | pfind.c:343-363 | a command line starting with an option always fails, with a usage error iff its tokens form an acceptable option list |
| `ArgumentProperties.LeadingPathFound` | pfind.c:348-358 | the token named by "paths must precede expression" sits in an option position, does not start with '-', and every pair before it was accepted |
| `ArgumentProperties.PathsMustPrecedeNamesPath` | pfind.c:343-358 | "paths must precede expression" arises only when the first argument starts with '-', and names a token that follows accepted option pairs |
| `ArgumentProperties.TypeValueFirstCharOnly` | pfind.c:309-312 | only the first character of the -type value matters |
| `ArgumentProperties.ExampleBarePath` | pfind.c:91-104 | `pfind .` succeeds with no criteria |
| `ArgumentProperties.ExamplePathAfterOptions` | pfind.c:348-363 | `pfind -name foo .` fails naming "."; `pfind -name foo` is a usage error |
| `ArgumentProperties.ExampleMissingArgument` | pfind.c:301-315 | `pfind . -name` and `pfind . -type d -type` report the missing argument |
| `ArgumentProperties.ExampleAlreadyDeclared` | pfind.c:316-320 | `pfind . -name a -name b` reports -name as already declared |
| `ArgumentProperties.ExampleUnknownType` | pfind.c:396-399 | `-type q` is an unknown type 'q'; an empty value is an unknown type NUL |
| `ArgumentProperties.ExampleUnknownPredicate` | pfind.c:316-320 | `-size` is an unknown predicate |
| `ArgumentProperties.ExampleValuesVerbatim` | pfind.c:301-312 | a value starting with '-' is taken as the pattern; `-type dir` means `-type d` |
| `ArgumentProperties.ExampleTooMany` | pfind.c:88-89 | six arguments after the program name is a usage error |
| `EntryFilter.CheckEntry` | pfind.c:240-258 | NO when a pattern is given and does not match; NO when a type is given and differs from the mode's type bits; NO for "." or ".." unless the directory argument is that same string; YES otherwise |
| `EntryFilter.RecurseDirectory` | pfind.c:269-277 | YES exactly for a directory mode whose name is neither "." nor ".." |
| `EntryFilter.NoCriteriaKeepsAllButPseudo` | pfind.c:244-257 | with no pattern and type 0 every name is kept except "." and ".." under a different directory argument |
| `EntryFilter.RecursedDirectoriesMatchTypeD` | pfind.c:269-277 | every directory the walk descends into passes "-type d" |
| `SearchDecisions.StartPathJudgedByCriteriaOnly` | pfind.c:168-176 | a start path that is not a directory, checked against itself, is judged by pattern and type alone |
| `SearchDecisions.StartDirectoryDot` | pfind.c:204-214 | enumerating "." reports its "." entry as "." (the check at line 213 sees dirname "." equal to the name ".") and never its ".." entry; this is why `pfind . -name .` reports "." |
| `SearchDecisions.StartDirectoryNotReportedAsDot` | pfind.c:204-214 | for a directory start path other than ".", its "." entry gets a different path and is rejected, so the directory itself is not reported through it |
| `SearchDecisions.SameNameSubdirectoryReentered` | pfind.c:204-218 | an entry named like its directory's path gets that same path, and if it is a directory the walk searches that path again |
| `SearchDecisions.SubdirectoryPathNotPseudo` | pfind.c:204-218 | the path of a directory the walk descends into is never "." or ".." |
| `SearchDecisions.PseudoEntriesOfSubdirectoryNotReported` | pfind.c:213-218 | "." and ".." met while enumerating a subdirectory are never reported, whatever the criteria |
| `SearchDecisions.TypeFilterExact` | pfind.c:248 | under "-type c" for any of the seven letters, every reported entry's type bits equal that letter's code |

## Left out

- `searchdir`, `process_dir` and `process_file` (pfind.c:126-225): the walk itself, driven
  by `opendir`, `readdir`, `lstat` and `closedir`, whose enumeration order and failures are
  the operating system's. Only the calls they make to `check_entry`, `recurse_directory`
  and `construct_path` are modelled. This includes the case where `process_file` reports
  an error for a start path that is a directory it could not open.
- The inside of `fnmatch`: a libc routine. The model takes it as the parameter `matches`,
  so the leading-period rule of `FNM_PERIOD` is not modelled.
- Memory: malloc's outcome is the parameter `mallocOk` of `ConstructPath`. Freeing is not
  modelled.
- `ConstructPath`: does not model a negative return from sprintf. Nor does it model the
  `int` overflow of `path_size` for strings near 2^31 characters. Lengths are unbounded.
- The text of the diagnostics, `file_error`, `strerror`/`errno`, the `progname` global and
  the process exit. Only the error kind and the token it names are modelled.
- The program name: the model's argument list starts after it, so `ac > 6` becomes more
  than five arguments. An empty `argv` (`ac == 0`) is not modelled.
- Strings are their characters without the NUL terminator. A token cannot contain NUL, so
  `strcmp` equality is sequence equality.
- Multi-byte characters: a `char` stands for one byte. For a `-type` value that starts with
  a non-ASCII character, the source's message names the first byte. The model's
  `UnknownType` names the whole character.
