/**
 The command guard: which command lines a model's Bash call may run, decided token by token
 against argument schemas, and which allowlisted tool such a line counts as.
 */
module Guard {
  import opened Wrappers
  import PyText

  // ---- schemas -----------------------------------------------------------

  // The two patterns for positional arguments; they differ in the length they allow.
  datatype Pattern = Branch | RepoPath

  datatype ArgSchema = ArgSchema(
    prefix: seq<string>,
    tool: string,
    flags: map<string, bool>,
    positional: Option<Pattern>,
    maxPositional: nat)

  predicate IsAlnum(c: char)
  {
    'A' <= c <= 'Z' || 'a' <= c <= 'z' || '0' <= c <= '9'
  }

  predicate IsPathChar(c: char)
  {
    IsAlnum(c) || c == '.' || c == '_' || c == '/' || c == '-'
  }

  // `$` also matches before a final line feed.
  function Body(token: string): string
  {
    if token != "" && token[|token| - 1] == '\n' then token[..|token| - 1] else token
  }

  function MaxLength(p: Pattern): nat
  {
    match p
    case Branch => 100
    case RepoPath => 200
  }

  predicate Fits(p: Pattern, token: string)
  {
    var body := Body(token);
    body != "" && IsAlnum(body[0]) && |body| <= MaxLength(p) && forall i :: 0 <= i < |body| ==> IsPathChar(body[i])
  }

  // The pattern for flag values.
  predicate IsText(value: string)
  {
    var body := Body(value);
    1 <= |body| <= 2000 && forall i :: 0 <= i < |body| ==> body[i] as int > 0x1f
  }

  predicate IsFlag(token: string)
  {
    token != "" && token[0] == '-'
  }

  // `token.partition("=")`.
  function FlagName(token: string): string
  {
    PyText.Before(token, '=')
  }

  function InlineValue(token: string): string
  {
    var n := |FlagName(token)|;
    if n < |token| then token[n + 1..] else ""
  }

  // ---- the grammar -------------------------------------------------------

  datatype Arg =
    | Bare(name: string, equals: bool)
    | Inline(name: string, value: string)
    | Spaced(name: string, equals: bool, value: string)
    | Positional(token: string)

  function Spelled(name: string, equals: bool): string
  {
    if equals then name + "=" else name
  }

  function Tokens(arg: Arg): seq<string>
  {
    match arg
    case Bare(name, equals) => [Spelled(name, equals)]
    case Inline(name, value) => [name + "=" + value]
    case Spaced(name, equals, value) => [Spelled(name, equals), value]
    case Positional(token) => [token]
  }

  predicate IsName(name: string)
  {
    IsFlag(name) && '=' !in name
  }

  // One argument the schema permits.
  predicate Permitted(schema: ArgSchema, arg: Arg)
  {
    match arg
    case Bare(name, _) => IsName(name) && name in schema.flags && !schema.flags[name]
    case Inline(name, value) => IsName(name) && name in schema.flags && schema.flags[name] && value != "" && IsText(value)
    case Spaced(name, _, value) => IsName(name) && name in schema.flags && schema.flags[name] && IsText(value)
    case Positional(token) => !IsFlag(token) && schema.positional.Some? && Fits(schema.positional.value, token)
  }

  function Yield(args: seq<Arg>): seq<string>
  {
    if args == [] then [] else Tokens(args[0]) + Yield(args[1..])
  }

  function Positionals(args: seq<Arg>): nat
  {
    if args == [] then 0 else (if args[0].Positional? then 1 else 0) + Positionals(args[1..])
  }

  ghost predicate Derives(schema: ArgSchema, args: seq<Arg>, tokens: seq<string>, budget: nat)
  {
    Yield(args) == tokens && Positionals(args) <= budget && forall i :: 0 <= i < |args| ==> Permitted(schema, args[i])
  }

  ghost predicate InGrammar(schema: ArgSchema, argv: seq<string>)
  {
    && |schema.prefix| <= |argv| && argv[..|schema.prefix|] == schema.prefix
    && exists args :: Derives(schema, args, argv[|schema.prefix|..], schema.maxPositional)
  }

  // ---- the acceptor ------------------------------------------------------

  // What remains to be decided after some tokens, with room for `budget` more positionals.
  predicate Accepts(schema: ArgSchema, rest: seq<string>, budget: nat)
    decreases |rest|
  {
    if rest == [] then true
    else if IsFlag(rest[0]) then
      var name, inline := FlagName(rest[0]), InlineValue(rest[0]);
      && name in schema.flags
      && if inline != "" then schema.flags[name] && IsText(inline) && Accepts(schema, rest[1..], budget)
         else if schema.flags[name] then |rest| > 1 && IsText(rest[1]) && Accepts(schema, rest[2..], budget)
         else Accepts(schema, rest[1..], budget)
    else
      && schema.positional.Some? && budget > 0 && Fits(schema.positional.value, rest[0])
      && Accepts(schema, rest[1..], budget - 1)
  }

  lemma {:induction false} BeforeSplits(s: string)
    ensures var n := |FlagName(s)|;
            n <= |s| && FlagName(s) == s[..n] && '=' !in FlagName(s) && (n < |s| ==> s[n] == '=')
  {
    if s != "" && s[0] != '=' {
      BeforeSplits(s[1..]);
      assert FlagName(s) == [s[0]] + FlagName(s[1..]);
    }
  }

  lemma {:induction false} BeforeJoined(name: string, rest: string)
    requires '=' !in name && (rest == "" || rest[0] == '=')
    ensures FlagName(name + rest) == name
  {
    if name == "" {
      assert name + rest == rest;
    } else {
      assert (name + rest)[1..] == name[1..] + rest;
      BeforeJoined(name[1..], rest);
    }
  }

  lemma SpelledFlag(name: string, equals: bool)
    requires IsName(name)
    ensures IsFlag(Spelled(name, equals)) && FlagName(Spelled(name, equals)) == name && InlineValue(Spelled(name, equals)) == ""
  {
    BeforeJoined(name, if equals then "=" else "");
    assert name + "" == name;
  }

  lemma InlineFlag(name: string, value: string)
    requires IsName(name)
    ensures var token := name + "=" + value;
            IsFlag(token) && FlagName(token) == name && InlineValue(token) == value
  {
    assert name + "=" + value == name + ("=" + value);
    BeforeJoined(name, "=" + value);
  }

  // A flag token is its name, spelled with or without the equals sign, or name, sign and value.
  lemma FlagToken(token: string)
    requires IsFlag(token) && FlagName(token) != ""
    ensures IsName(FlagName(token))
    ensures if InlineValue(token) == "" then token == Spelled(FlagName(token), |FlagName(token)| < |token|)
            else token == FlagName(token) + "=" + InlineValue(token)
  {
    BeforeSplits(token);
    var n := |FlagName(token)|;
    if n < |token| {
      assert token == token[..n] + "=" + token[n + 1..];
      if InlineValue(token) == "" {
        assert token[n + 1..] == "" && token == token[..n] + "=";
      }
    }
  }

  lemma FlagNameNonempty(token: string)
    requires IsFlag(token)
    ensures FlagName(token) != ""
  {
  }

  lemma {:induction false} AcceptedIsDerived(schema: ArgSchema, rest: seq<string>, budget: nat) returns (args: seq<Arg>)
    requires Accepts(schema, rest, budget)
    ensures Derives(schema, args, rest, budget)
    decreases |rest|
  {
    hide IsText, Fits, FlagName, InlineValue, IsName;
    if rest == [] {
      args := [];
    } else {
      var arg, tail, left := FirstArg(schema, rest, budget);
      var more := AcceptedIsDerived(schema, tail, left);
      args := [arg] + more;
      assert args[1..] == more;
    }
  }

  lemma FirstArg(schema: ArgSchema, rest: seq<string>, budget: nat) returns (arg: Arg, tail: seq<string>, left: nat)
    requires rest != [] && Accepts(schema, rest, budget)
    ensures Permitted(schema, arg) && rest == Tokens(arg) + tail && |tail| < |rest|
    ensures left + (if arg.Positional? then 1 else 0) == budget && Accepts(schema, tail, left)
  {
    hide IsText, Fits, FlagName, InlineValue, IsName;
    var token := rest[0];
    left, tail := budget, rest[1..];
    assert rest == [token] + rest[1..];
    if IsFlag(token) {
      FlagNameNonempty(token);
      FlagToken(token);
      var name, equals := FlagName(token), |FlagName(token)| < |token|;
      if InlineValue(token) != "" {
        arg := Inline(name, InlineValue(token));
      } else if schema.flags[name] {
        arg, tail := Spaced(name, equals, rest[1]), rest[2..];
        assert rest == [token, rest[1]] + rest[2..];
      } else {
        arg := Bare(name, equals);
      }
    } else {
      arg, left := Positional(token), budget - 1;
    }
  }

  lemma AcceptsFirst(schema: ArgSchema, arg: Arg, tail: seq<string>, left: nat)
    requires Permitted(schema, arg) && Accepts(schema, tail, left)
    ensures Accepts(schema, Tokens(arg) + tail, left + if arg.Positional? then 1 else 0)
  {
    hide IsText, Fits, FlagName, InlineValue, IsName;
    var rest := Tokens(arg) + tail;
    match arg
    case Bare(name, equals) =>
      SpelledFlag(name, equals);
      assert rest[1..] == tail;
    case Inline(name, value) =>
      InlineFlag(name, value);
      assert rest[1..] == tail;
    case Spaced(name, equals, value) =>
      SpelledFlag(name, equals);
      assert rest[2..] == tail && rest[1] == value;
    case Positional(token) =>
      assert rest[1..] == tail;
  }

  lemma {:induction false} MoreBudget(schema: ArgSchema, rest: seq<string>, budget: nat, more: nat)
    requires Accepts(schema, rest, budget) && budget <= more
    ensures Accepts(schema, rest, more)
    decreases |rest|
  {
    hide IsText, Fits, FlagName, InlineValue, IsName;
    if rest != [] {
      if IsFlag(rest[0]) {
        if InlineValue(rest[0]) == "" && schema.flags[FlagName(rest[0])] {
          MoreBudget(schema, rest[2..], budget, more);
        } else {
          MoreBudget(schema, rest[1..], budget, more);
        }
      } else {
        MoreBudget(schema, rest[1..], budget - 1, more - 1);
      }
    }
  }

  lemma {:induction false} DerivedIsAccepted(schema: ArgSchema, args: seq<Arg>, rest: seq<string>)
    requires Derives(schema, args, rest, Positionals(args))
    ensures Accepts(schema, rest, Positionals(args))
  {
    if args != [] {
      assert forall i :: 0 <= i < |args[1..]| ==> args[1..][i] == args[i + 1];
      DerivedIsAccepted(schema, args[1..], Yield(args[1..]));
      AcceptsFirst(schema, args[0], Yield(args[1..]), Positionals(args[1..]));
    }
  }

  // The acceptor decides exactly the grammar.
  lemma AcceptsIsGrammar(schema: ArgSchema, rest: seq<string>)
    ensures Accepts(schema, rest, schema.maxPositional) <==> exists args :: Derives(schema, args, rest, schema.maxPositional)
  {
    hide Accepts;
    if Accepts(schema, rest, schema.maxPositional) {
      var args := AcceptedIsDerived(schema, rest, schema.maxPositional);
    }
    forall args | Derives(schema, args, rest, schema.maxPositional) ensures Accepts(schema, rest, schema.maxPositional) {
      DerivedIsAccepted(schema, args, rest);
      MoreBudget(schema, rest, Positionals(args), schema.maxPositional);
    }
  }

  lemma GrammarByPrefix(schema: ArgSchema, argv: seq<string>)
    ensures var n := |schema.prefix|;
            InGrammar(schema, argv) <==>
              n <= |argv| && argv[..n] == schema.prefix && Accepts(schema, argv[n..], schema.maxPositional)
  {
    hide Accepts, Derives;
    if |schema.prefix| <= |argv| {
      AcceptsIsGrammar(schema, argv[|schema.prefix|..]);
    }
  }

  // The loop of `_match_schema`.
  method MatchSchema(argv: seq<string>, schema: ArgSchema) returns (ok: bool)
    ensures ok <==> InGrammar(schema, argv)
  {
    hide IsText, Fits, FlagName, InlineValue, InGrammar;
    GrammarByPrefix(schema, argv);
    var n := |schema.prefix|;
    if n > |argv| || argv[..n] != schema.prefix {
      return false;
    }
    var rest := argv[n..];
    var positionals, index := 0, 0;
    assert rest[0..] == rest;
    while index < |rest|
      invariant 0 <= index <= |rest| && 0 <= positionals <= schema.maxPositional
      invariant Accepts(schema, rest, schema.maxPositional) <==> Accepts(schema, rest[index..], schema.maxPositional - positionals)
    {
      var token := rest[index];
      ghost var left := rest[index..];
      assert left[0] == token && left[1..] == rest[index + 1..];
      assert |left| > 1 ==> left[1] == rest[index + 1] && left[2..] == rest[index + 2..];
      if IsFlag(token) {
        var name, inline := FlagName(token), InlineValue(token);
        if name !in schema.flags {
          return false;
        }
        if inline != "" {
          if !schema.flags[name] || !IsText(inline) {
            return false;
          }
        } else if schema.flags[name] {
          index := index + 1;
          if index >= |rest| || !IsText(rest[index]) {
            return false;
          }
        }
        index := index + 1;
      } else {
        positionals := positionals + 1;
        if schema.positional.None? || positionals > schema.maxPositional || !Fits(schema.positional.value, token) {
          return false;
        }
        index := index + 1;
      }
    }
    return true;
  }

  // ---- the first schema that matches -------------------------------------

  predicate Comparable(a: seq<string>, b: seq<string>)
  {
    a <= b || b <= a
  }

  // No prefix of one schema begins another schema's.
  predicate Incomparable(schemas: seq<ArgSchema>)
  {
    forall i, j :: 0 <= i < j < |schemas| ==> !Comparable(schemas[i].prefix, schemas[j].prefix)
  }

  ghost predicate IsFirstMatch(schemas: seq<ArgSchema>, argv: seq<string>, m: Option<ArgSchema>)
  {
    match m
    case None => forall k :: 0 <= k < |schemas| ==> !InGrammar(schemas[k], argv)
    case Some(s) =>
      exists i :: 0 <= i < |schemas| && schemas[i] == s && InGrammar(s, argv)
                  && forall k :: 0 <= k < i ==> !InGrammar(schemas[k], argv)
  }

  method FirstMatch(schemas: seq<ArgSchema>, argv: seq<string>) returns (m: Option<ArgSchema>)
    ensures IsFirstMatch(schemas, argv, m)
  {
    for i := 0 to |schemas|
      invariant forall k :: 0 <= k < i ==> !InGrammar(schemas[k], argv)
    {
      var ok := MatchSchema(argv, schemas[i]);
      if ok {
        return Some(schemas[i]);
      }
    }
    return None;
  }

  lemma MatchedPrefixesCompare(a: ArgSchema, b: ArgSchema, argv: seq<string>)
    requires InGrammar(a, argv) && InGrammar(b, argv)
    ensures Comparable(a.prefix, b.prefix)
  {
    hide Derives;
    if |a.prefix| <= |b.prefix| {
      assert a.prefix == argv[..|b.prefix|][..|a.prefix|];
    } else {
      assert b.prefix == argv[..|a.prefix|][..|b.prefix|];
    }
  }

  lemma OneSchemaMatches(schemas: seq<ArgSchema>, argv: seq<string>, i: nat, j: nat)
    requires Incomparable(schemas) && i < |schemas| && j < |schemas|
    requires InGrammar(schemas[i], argv) && InGrammar(schemas[j], argv)
    ensures i == j
  {
    MatchedPrefixesCompare(schemas[i], schemas[j], argv);
  }

  // Whatever the order of the schemas, the same one matches: it is the one whose grammar holds argv.
  lemma OrderDoesNotMatter(schemas: seq<ArgSchema>, others: seq<ArgSchema>, argv: seq<string>,
                           m1: Option<ArgSchema>, m2: Option<ArgSchema>)
    requires Incomparable(schemas) && forall s :: s in others <==> s in schemas
    requires IsFirstMatch(schemas, argv, m1) && IsFirstMatch(others, argv, m2)
    ensures m1 == m2
    ensures forall s :: m1 == Some(s) <==> s in schemas && InGrammar(s, argv)
  {
    hide InGrammar, Incomparable;
    forall s | s in schemas && InGrammar(s, argv) ensures m1 == Some(s) && m2 == Some(s) {
      var j :| 0 <= j < |schemas| && schemas[j] == s;
      assert s in others;
      var k2 :| 0 <= k2 < |others| && others[k2] == s;
      if m1.Some? {
        var i :| 0 <= i < |schemas| && schemas[i] == m1.value && InGrammar(m1.value, argv);
        OneSchemaMatches(schemas, argv, i, j);
      }
      if m2.Some? {
        assert m2.value in others;
        var i :| 0 <= i < |schemas| && schemas[i] == m2.value;
        OneSchemaMatches(schemas, argv, i, j);
      }
    }
    if m1.Some? {
      assert m1.value in schemas;
    }
    if m2.Some? {
      assert m2.value in others;
    }
  }
}
