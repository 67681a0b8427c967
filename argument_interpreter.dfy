/** The command-line interpreter of pfind: main's argument loop, get_path, get_option,
    get_type and the choice of message in type_error. Every exit(1) of the source is an
    `Err` carrying the kind of error and the token it names.

    The argument list is the one after the program name. The reference definition is
    `Interpret`, written over option/value pairs; `ParseArgs` walks a cursor through the
    list with the source's state variables (path, name, type) and is proved equal to it. */
module ArgumentInterpreter {
  import opened Wrappers
  import opened FileModes

  /** At most five arguments after the program name (one path, two for -name, two for -type). */
  const MaxArgs: nat := 5

  /** The fatal errors of argument processing. */
  datatype ParseError =
    | Usage                          // syntax_error(): the usage line
    | PathsMustPrecede(token: string) // a path after leading options
    | MissingArg(opt: string)         // -name or -type as the last token
    | AlreadyDeclared(opt: string)    // -name or -type repeated with a value after it
    | UnknownPredicate(opt: string)   // any other token in option position
    | UnknownType(c: char)            // a -type letter outside {b,c,d,f,l,p,s}

  /** What the search filters on: an optional pattern and a file-type code, 0 meaning unset. */
  datatype Criteria = Criteria(name: Option<string>, typ: int)

  const Unset: Criteria := Criteria(None, 0)

  /** A successful parse: the start path and the criteria. */
  datatype Invocation = Invocation(path: string, criteria: Criteria)

  /** `*arg[0] == '-'` (the empty string starts with its NUL terminator). */
  predicate StartsWithDash(s: string) {
    |s| > 0 && s[0] == '-'
  }

  /** `value[0]`: the first character of a C string, NUL for the empty string. */
  function FirstChar(s: string): char {
    if |s| == 0 then '\0' else s[0]
  }

  /** The token after position i, or None where the argument vector holds its NULL. */
  function ValueAfter(args: seq<string>, i: nat): (v: Option<string>)
    ensures v.Some? <==> i + 1 < |args|
    ensures v.Some? ==> v.value == args[i + 1]
  {
    if i + 1 < |args| then Some(args[i + 1]) else None
  }

  predicate IsOptionName(s: string) {
    s == "-name" || s == "-type"
  }

  const TypeLetters: string := "bcdflps"

  /** get_type: the file-type code of a -type letter. */
  function GetType(c: char): (r: Result<int, ParseError>)
    ensures r.Ok? <==> c in TypeLetters
    ensures r.Ok? ==> r.value != 0 && IsFileTypeCode(r.value)
    ensures r.Err? ==> r.error == UnknownType(c)
  {
    match c
    case 'b' => Ok(S_IFBLK)
    case 'c' => Ok(S_IFCHR)
    case 'd' => Ok(S_IFDIR)
    case 'f' => Ok(S_IFREG)
    case 'l' => Ok(S_IFLNK)
    case 'p' => Ok(S_IFIFO)
    case 's' => Ok(S_IFSOCK)
    case _ => Err(UnknownType(c))
  }

  /** The inverse of get_type: the letter that names a file-type code. */
  function TypeLetter(t: int): Option<char> {
    if t == S_IFBLK then Some('b')
    else if t == S_IFCHR then Some('c')
    else if t == S_IFDIR then Some('d')
    else if t == S_IFREG then Some('f')
    else if t == S_IFLNK then Some('l')
    else if t == S_IFIFO then Some('p')
    else if t == S_IFSOCK then Some('s')
    else None
  }

  /** get_type and TypeLetter are inverse on the seven letters, so distinct letters give
      distinct codes. */
  lemma TypeLetterRoundTrip(c: char, t: int)
    ensures GetType(c) == Ok(t) <==> TypeLetter(t) == Some(c)
  {
  }

  lemma GetTypeInjective(a: char, b: char)
    requires GetType(a).Ok? && GetType(a) == GetType(b)
    ensures a == b
  {
  }

  /** type_error: the message chosen for an option that get_option refuses. */
  function TypeError(opt: string, value: Option<string>): (e: ParseError)
    ensures e == AlreadyDeclared(opt) <==> IsOptionName(opt) && value.Some?
    ensures e == MissingArg(opt) <==> IsOptionName(opt) && value.None?
    ensures e == UnknownPredicate(opt) <==> !IsOptionName(opt)
  {
    if opt == "-name" || opt == "-type" then
      if value.Some? then AlreadyDeclared(opt) else MissingArg(opt)
    else UnknownPredicate(opt)
  }

  /** get_option on the option `opt`, the token after it `value` and the state so far.
      Each of -name and -type is accepted once, with the next token taken verbatim as its
      value; -type keeps only the code of the value's first character. */
  function OptionStep(opt: string, value: Option<string>, st: Criteria): (r: Result<Criteria, ParseError>)
    ensures r.Ok? ==> value.Some?
    ensures r.Err? ==> !r.error.Usage? && !r.error.PathsMustPrecede?
    ensures !IsOptionName(opt) ==> r == Err(UnknownPredicate(opt))
    ensures IsOptionName(opt) && value.None? ==> r == Err(MissingArg(opt))
    ensures opt == "-name" && st.name.Some? && value.Some? ==> r == Err(AlreadyDeclared(opt))
    ensures opt == "-type" && st.typ != 0 && value.Some? ==> r == Err(AlreadyDeclared(opt))
    ensures opt == "-name" && st.name.None? && value.Some? ==> r == Ok(Criteria(value, st.typ))
    ensures opt == "-type" && st.typ == 0 && value.Some? ==>
      match GetType(FirstChar(value.value))
      case Ok(t) => r == Ok(Criteria(st.name, t))
      case Err(e) => r == Err(UnknownType(FirstChar(value.value)))
  {
    if opt == "-name" && st.name.None? then
      if value.Some? then Ok(Criteria(value, st.typ)) else Err(TypeError(opt, value))
    else if opt == "-type" && st.typ == 0 then
      if value.Some? then
        match GetType(FirstChar(value.value))
        case Ok(t) => Ok(Criteria(st.name, t))
        case Err(e) => Err(e)
      else Err(TypeError(opt, value))
    else Err(TypeError(opt, value))
  }

  /** The options after the start path, consumed pair by pair; the first error ends it.
      Success uses up whole pairs, and an error here comes from get_option alone: it is
      never the usage error nor a misplaced path. */
  function Options(toks: seq<string>, st: Criteria): (r: Result<Criteria, ParseError>)
    ensures r.Ok? ==> |toks| % 2 == 0
    ensures r.Err? ==> !r.error.Usage? && !r.error.PathsMustPrecede?
    decreases |toks|
  {
    if toks == [] then Ok(st)
    else
      match OptionStep(toks[0], ValueAfter(toks, 0), st)
      case Err(e) => Err(e)
      case Ok(next) => Options(toks[2..], next)
  }

  /** The option-first branch of get_path: leading options are processed (so their errors
      come first), then a remaining token is reported as a misplaced path; with nothing
      left it is a usage error. This branch never succeeds. */
  function LeadingOptions(toks: seq<string>, st: Criteria): (r: ParseError)
    ensures r.PathsMustPrecede? ==> !StartsWithDash(r.token)
    decreases |toks|
  {
    if toks == [] then Usage
    else if !StartsWithDash(toks[0]) then PathsMustPrecede(toks[0])
    else
      match OptionStep(toks[0], ValueAfter(toks, 0), st)
      case Err(e) => e
      case Ok(next) => LeadingOptions(toks[2..], next)
  }

  /** The whole interpretation of the argument list. */
  function Interpret(args: seq<string>): (r: Result<Invocation, ParseError>)
    ensures |args| == 0 || |args| > MaxArgs ==> r == Err(Usage)
    ensures |args| > 0 && StartsWithDash(args[0]) ==> r.Err?
    ensures r.Ok? ==> r.value.path == args[0] && !StartsWithDash(args[0])
  {
    if |args| > MaxArgs || |args| == 0 then Err(Usage)
    else if StartsWithDash(args[0]) then Err(LeadingOptions(args, Unset))
    else
      match Options(args[1..], Unset)
      case Err(e) => Err(e)
      case Ok(c) => Ok(Invocation(args[0], c))
  }

  // ---------------------------------------------------------------------------
  // The imperative interpreter, as the source runs it.

  /** get_option(args + i, &name, &type): the new values of name and type, or the error. */
  method GetOption(args: seq<string>, i: nat, name: Option<string>, typ: int)
    returns (r: Result<Criteria, ParseError>)
    requires i < |args|
    ensures r == OptionStep(args[i], ValueAfter(args, i), Criteria(name, typ))
  {
    var option := args[i];
    var value := ValueAfter(args, i);
    if option == "-name" && name.None? {
      if value.Some? {
        r := Ok(Criteria(value, typ));
      } else {
        r := Err(TypeError(option, value));
      }
    } else if option == "-type" && typ == 0 {
      if value.Some? {
        var t := GetType(FirstChar(value.value));
        if t.Err? {
          return Err(t.error);
        }
        r := Ok(Criteria(name, t.value));
      } else {
        r := Err(TypeError(option, value));
      }
    } else {
      r := Err(TypeError(option, value));
    }
  }

  /** get_path(args + i, &path, &name, &type): the start path, or, when the token begins
      with '-', the error the option-first branch ends in. */
  method GetPath(args: seq<string>, i: nat, name: Option<string>, typ: int)
    returns (r: Result<string, ParseError>)
    requires i < |args|
    ensures !StartsWithDash(args[i]) ==> r == Ok(args[i])
    ensures StartsWithDash(args[i]) ==> r == Err(LeadingOptions(args[i..], Criteria(name, typ)))
  {
    if !StartsWithDash(args[i]) {
      return Ok(args[i]);
    }
    var j := i;
    var st := Criteria(name, typ);
    while j < |args| && StartsWithDash(args[j])
      invariant i <= j <= |args|
      invariant LeadingOptions(args[j..], st) == LeadingOptions(args[i..], Criteria(name, typ))
      decreases |args| - j
    {
      var step := GetOption(args, j, st.name, st.typ);
      assert args[j..][0] == args[j] && ValueAfter(args[j..], 0) == ValueAfter(args, j);
      if step.Err? {
        return Err(step.error);
      }
      assert args[j..][2..] == args[j + 2..];
      st := step.value;
      j := j + 2;
    }
    if j < |args| {
      r := Err(PathsMustPrecede(args[j]));
    } else {
      r := Err(Usage);
    }
  }

  /** main's loop: the cursor i walks the arguments; the first token goes to get_path and
      every later one to get_option, which also consumes the value after it. */
  method ParseArgs(args: seq<string>) returns (r: Result<Invocation, ParseError>)
    ensures r == Interpret(args)
  {
    if |args| > MaxArgs {
      return Err(Usage);
    }
    var path: Option<string> := None;
    var name: Option<string> := None;
    var typ := 0;
    var i := 0;
    while i < |args|
      invariant i <= |args|
      invariant path.None? ==> i == 0 && name == None && typ == 0
      invariant path.Some? ==> 1 <= i && path == Some(args[0]) && !StartsWithDash(args[0])
      invariant path.Some? ==> Options(args[i..], Criteria(name, typ)) == Options(args[1..], Unset)
      decreases |args| - i
    {
      if path.None? {
        var p := GetPath(args, i, name, typ);
        if p.Err? {
          return Err(p.error);
        }
        path := Some(p.value);
      } else {
        var step := GetOption(args, i, name, typ);
        assert args[i..][0] == args[i] && ValueAfter(args[i..], 0) == ValueAfter(args, i);
        if step.Err? {
          return Err(step.error);
        }
        assert args[i..][2..] == args[i + 2..];
        name, typ := step.value.name, step.value.typ;
        i := i + 1;
      }
      i := i + 1;
    }
    if path.None? {
      return Err(Usage);
    }
    assert args[i..] == [];
    r := Ok(Invocation(path.value, Criteria(name, typ)));
  }
}
