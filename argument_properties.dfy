/** What the argument interpreter promises, stated over the reference definition. */
module ArgumentProperties {
  import opened Wrappers
  import opened FileModes
  import opened ArgumentInterpreter

  /** k is an option position of a token list that alternates option and value. */
  predicate KeyAt(toks: seq<string>, k: int) {
    0 <= k < |toks| && k % 2 == 0
  }

  /** An option list that get_option accepts from the start: pairs whose option is -name
      or -type, each option at most once, and every -type value starting with a known letter. */
  ghost predicate WellFormedOptions(toks: seq<string>) {
    |toks| % 2 == 0 &&
    (forall k | KeyAt(toks, k) ::
      toks[k] == "-name" || (toks[k] == "-type" && GetType(FirstChar(toks[k + 1])).Ok?)) &&
    (forall j, k | KeyAt(toks, j) && KeyAt(toks, k) && j < k :: toks[j] != toks[k])
  }

  /** The state st is compatible with the options still to come: neither option of toks was
      already seen. */
  ghost predicate Fresh(toks: seq<string>, st: Criteria) {
    (st.name.Some? ==> forall k | KeyAt(toks, k) :: toks[k] != "-name") &&
    (st.typ != 0 ==> forall k | KeyAt(toks, k) :: toks[k] != "-type")
  }

  /** Shifting an option position past the first pair. */
  lemma KeyAtTail(toks: seq<string>, k: int)
    requires |toks| >= 2 && k >= 0
    ensures KeyAt(toks, k + 2) <==> KeyAt(toks[2..], k)
  {
  }

  /** A successful run of get_option over an option list: the list is made of pairs, every
      option is -name or -type, none repeats, and each recorded value is the token right
      after its option (for -type, the code of that token's first letter); an option that
      does not appear leaves its state as it was. */
  lemma {:induction false} OptionsSound(toks: seq<string>, st: Criteria, c: Criteria)
    requires Options(toks, st) == Ok(c)
    ensures |toks| % 2 == 0
    ensures forall k | KeyAt(toks, k) :: IsOptionName(toks[k])
    ensures forall j, k | KeyAt(toks, j) && KeyAt(toks, k) && j < k :: toks[j] != toks[k]
    ensures Fresh(toks, st)
    ensures (forall k | KeyAt(toks, k) :: toks[k] != "-name") ==> c.name == st.name
    ensures forall k | KeyAt(toks, k) && toks[k] == "-name" :: c.name == Some(toks[k + 1])
    ensures (forall k | KeyAt(toks, k) :: toks[k] != "-type") ==> c.typ == st.typ
    ensures forall k | KeyAt(toks, k) && toks[k] == "-type" ::
      GetType(FirstChar(toks[k + 1])) == Ok(c.typ)
    decreases |toks|
  {
    if toks != [] {
      var step := OptionStep(toks[0], ValueAfter(toks, 0), st);
      assert step.Ok?;
      var next := step.value;
      var rest := toks[2..];
      OptionsSound(rest, next, c);
      forall k | KeyAt(toks, k) && k >= 2
        ensures KeyAt(rest, k - 2) && toks[k] == rest[k - 2]
      {
        KeyAtTail(toks, k - 2);
      }
      forall k | KeyAt(rest, k)
        ensures KeyAt(toks, k + 2) && rest[k] == toks[k + 2] && rest[k + 1] == toks[k + 3]
      {
        KeyAtTail(toks, k);
      }
    }
  }

  /** The converse: every well-formed option list whose options are still free is accepted. */
  lemma {:induction false} OptionsComplete(toks: seq<string>, st: Criteria)
    requires WellFormedOptions(toks) && Fresh(toks, st)
    ensures Options(toks, st).Ok?
    decreases |toks|
  {
    if toks != [] {
      assert KeyAt(toks, 0);
      var step := OptionStep(toks[0], ValueAfter(toks, 0), st);
      var rest := toks[2..];
      forall k | KeyAt(rest, k)
        ensures KeyAt(toks, k + 2) && rest[k] == toks[k + 2] && rest[k + 1] == toks[k + 3]
      {
        KeyAtTail(toks, k);
      }
      assert |toks| >= 2 && ValueAfter(toks, 0) == Some(toks[1]);
      var next: Criteria;
      if toks[0] == "-name" {
        next := Criteria(Some(toks[1]), st.typ);
      } else {
        next := Criteria(st.name, GetType(FirstChar(toks[1])).value);
      }
      assert step == Ok(next);
      assert WellFormedOptions(rest);
      assert Fresh(rest, next);
      OptionsComplete(rest, next);
      assert Options(toks, st) == Options(rest, next);
    }
  }

  /** A command line is accepted exactly when it has one to five arguments, the first does
      not begin with '-', and the rest is a well-formed option list. */
  lemma InterpretSucceedsIff(args: seq<string>)
    ensures Interpret(args).Ok? <==>
      1 <= |args| <= MaxArgs && !StartsWithDash(args[0]) && WellFormedOptions(args[1..])
  {
    if 1 <= |args| <= MaxArgs && !StartsWithDash(args[0]) {
      if Interpret(args).Ok? {
        OptionsSound(args[1..], Unset, Interpret(args).value.criteria);
        var toks := args[1..];
        forall k | KeyAt(toks, k)
          ensures toks[k] == "-name" || (toks[k] == "-type" && GetType(FirstChar(toks[k + 1])).Ok?)
        {
        }
      }
      if WellFormedOptions(args[1..]) {
        OptionsComplete(args[1..], Unset);
      }
    }
  }

  /** What an accepted command line yields: the path is its first argument; the pattern is
      the token after -name, absent exactly when -name does not occur; the type is the code
      of the letter after -type, and 0 exactly when -type does not occur. */
  lemma InterpretResult(args: seq<string>, inv: Invocation)
    requires Interpret(args) == Ok(inv)
    ensures inv.path == args[0]
    ensures |args| % 2 == 1
    ensures var toks := args[1..];
      (inv.criteria.name.None? <==> forall k | KeyAt(toks, k) :: toks[k] != "-name") &&
      (forall k | KeyAt(toks, k) && toks[k] == "-name" :: inv.criteria.name == Some(toks[k + 1]))
    ensures var toks := args[1..];
      (inv.criteria.typ == 0 <==> forall k | KeyAt(toks, k) :: toks[k] != "-type") &&
      (forall k | KeyAt(toks, k) && toks[k] == "-type" ::
        GetType(FirstChar(toks[k + 1])) == Ok(inv.criteria.typ))
  {
    OptionsSound(args[1..], Unset, inv.criteria);
  }

  /** In the option-first branch the options are processed as if they followed a path:
      the outcome is the usage error exactly when they would all have been accepted. */
  lemma {:induction false} LeadingOptionsUsage(toks: seq<string>, st: Criteria)
    ensures LeadingOptions(toks, st) == Usage <==> Options(toks, st).Ok?
    decreases |toks|
  {
    if toks != [] && StartsWithDash(toks[0]) {
      match OptionStep(toks[0], ValueAfter(toks, 0), st)
      case Err(e) =>
      case Ok(next) => LeadingOptionsUsage(toks[2..], next);
    }
  }

  /** A command line starting with an option always fails, with the usage error exactly
      when its tokens form options get_option would accept. */
  lemma OptionFirstUsage(args: seq<string>)
    requires 1 <= |args| <= MaxArgs && StartsWithDash(args[0])
    ensures Interpret(args).Err?
    ensures Interpret(args) == Err(Usage) <==> Options(args, Unset).Ok?
  {
    LeadingOptionsUsage(args, Unset);
  }

  /** The token named by "paths must precede expression" sits in an option position, does
      not begin with '-', and every option/value pair before it was accepted: option errors
      are reported before a misplaced path. */
  lemma {:induction false} LeadingPathFound(toks: seq<string>, st: Criteria, t: string)
    requires LeadingOptions(toks, st) == PathsMustPrecede(t)
    ensures exists k :: (KeyAt(toks, k) && toks[k] == t && !StartsWithDash(t) &&
                         Options(toks[..k], st).Ok?)
    decreases |toks|
  {
    if !StartsWithDash(toks[0]) {
      assert KeyAt(toks, 0) && toks[0] == t && toks[..0] == [];
    } else {
      var next := OptionStep(toks[0], ValueAfter(toks, 0), st).value;
      var rest := toks[2..];
      LeadingPathFound(rest, next, t);
      var k :| KeyAt(rest, k) && rest[k] == t && !StartsWithDash(t) && Options(rest[..k], next).Ok?;
      KeyAtTail(toks, k);
      var pre := toks[..k + 2];
      assert pre[0] == toks[0] && ValueAfter(pre, 0) == ValueAfter(toks, 0);
      assert pre[2..] == rest[..k];
      assert Options(pre, st) == Options(rest[..k], next);
    }
  }

  lemma PathsMustPrecedeNamesPath(args: seq<string>, t: string)
    requires Interpret(args) == Err(PathsMustPrecede(t))
    ensures StartsWithDash(args[0])
    ensures exists k :: (KeyAt(args, k) && args[k] == t && !StartsWithDash(t) &&
                         Options(args[..k], Unset).Ok?)
  {
    if StartsWithDash(args[0]) {
      LeadingPathFound(args, Unset, t);
    }
  }

  /** Only the first character of the -type value is consulted. */
  lemma TypeValueFirstCharOnly(v1: string, v2: string, st: Criteria)
    requires FirstChar(v1) == FirstChar(v2)
    ensures OptionStep("-type", Some(v1), st) == OptionStep("-type", Some(v2), st)
  {
  }

  // Command lines and their outcomes, as the tool's documentation describes them.

  lemma ExampleBarePath()
    ensures Interpret(["."]) == Ok(Invocation(".", Unset))
  {
  }

  lemma ExamplePathAfterOptions()
    ensures Interpret(["-name", "foo", "."]) == Err(PathsMustPrecede("."))
    ensures Interpret(["-name", "foo"]) == Err(Usage)
  {
  }

  lemma ExampleMissingArgument()
    ensures Interpret([".", "-name"]) == Err(MissingArg("-name"))
    ensures Interpret([".", "-type", "d", "-type"]) == Err(MissingArg("-type"))
  {
  }

  lemma ExampleAlreadyDeclared()
    ensures Interpret([".", "-name", "a", "-name", "b"]) == Err(AlreadyDeclared("-name"))
  {
  }

  lemma ExampleUnknownType()
    ensures Interpret([".", "-type", "q"]) == Err(UnknownType('q'))
    ensures Interpret([".", "-type", ""]) == Err(UnknownType('\0'))
  {
  }

  lemma ExampleUnknownPredicate()
    ensures Interpret([".", "-size", "3"]) == Err(UnknownPredicate("-size"))
  {
  }

  lemma ExampleValuesVerbatim()
    ensures Interpret([".", "-name", "-type"]) == Ok(Invocation(".", Criteria(Some("-type"), 0)))
    ensures Interpret([".", "-type", "dir", "-name", "*.c"]) ==
      Ok(Invocation(".", Criteria(Some("*.c"), S_IFDIR)))
  {
  }

  lemma ExampleTooMany()
    ensures Interpret([".", "-name", "a", "-type", "f", "x"]) == Err(Usage)
  {
  }
}
