/** Repository-relative paths named by a unified diff, and the check of a planned path. */
module Paths {
  import opened Wrappers
  import opened PyText
  import Lex

  // ---- PurePosixPath -----------------------------------------------------

  predicate IsPart(part: string)
  {
    part != "" && part != "." && '/' !in part
  }

  function KeepParts(pieces: seq<string>): (r: seq<string>)
    ensures forall p :: p in r ==> p in pieces && p != "" && p != "."
  {
    if pieces == [] then []
    else
      var rest := KeepParts(pieces[1..]);
      if pieces[0] == "" || pieces[0] == "." then rest else [pieces[0]] + rest
  }

  function Parts(raw: string): (r: seq<string>)
    ensures forall p :: p in r ==> IsPart(p)
  {
    KeepParts(Split(raw, '/'))
  }

  predicate IsAbsolute(raw: string)
  {
    raw != "" && raw[0] == '/'
  }

  // A path that stays below the root it is taken relative to, read as text alone.
  predicate Safe(raw: string)
  {
    !IsAbsolute(raw) && ".." !in Parts(raw)
  }

  lemma {:induction false} KeepAll(parts: seq<string>)
    requires forall p :: p in parts ==> IsPart(p)
    ensures KeepParts(parts) == parts
  {
    if parts != [] {
      assert parts[0] in parts;
      KeepAll(parts[1..]);
    }
  }

  // Path.as_posix followed by parsing gives the same components: the text is a normal form.
  lemma PartsOfJoin(parts: seq<string>)
    requires parts != [] && forall p :: p in parts ==> IsPart(p)
    ensures Parts(Join(parts, '/')) == parts && !IsAbsolute(Join(parts, '/'))
  {
    assert forall i :: 0 <= i < |parts| ==> parts[i] in parts;
    SplitJoin(parts, '/');
    KeepAll(parts);
    assert IsPart(parts[0]);
    assert Join(parts, '/')[0] == parts[0][0];
  }

  // ---- changed_paths -----------------------------------------------------

  datatype Header = NotHeader | DevNull | Unsafe | Names(path: string)

  function HeaderOf(line: string): Header
  {
    if !StartsWith(line, "--- ") && !StartsWith(line, "+++ ") then NotHeader
    else
      var field := Before(line[4..], '\t');
      if field == "/dev/null" then DevNull
      else
        var raw := if StartsWith(field, "a/") || StartsWith(field, "b/") then field[2..] else field;
        if raw == "" || !Safe(raw) || Parts(raw) == [] then Unsafe else Names(Join(Parts(raw), '/'))
  }

  datatype DiffError = UnsafeDiffPath | NoChangedPaths

  function NamedPaths(lines: seq<string>): set<string>
  {
    set line | line in lines && HeaderOf(line).Names? :: HeaderOf(line).path
  }

  function ChangedPathsOf(lines: seq<string>): Result<seq<string>, DiffError>
  {
    if exists line :: line in lines && HeaderOf(line).Unsafe? then Err(UnsafeDiffPath)
    else if NamedPaths(lines) == {} then Err(NoChangedPaths)
    else Ok(Lex.Sorted(NamedPaths(lines)))
  }

  function ChangedPaths(diff: string): Result<seq<string>, DiffError>
  {
    ChangedPathsOf(SplitLines(diff))
  }

  // The loop of `changed_paths`.
  method CollectPaths(lines: seq<string>) returns (r: Result<seq<string>, DiffError>)
    ensures r == ChangedPathsOf(lines)
  {
    var paths: set<string> := {};
    for i := 0 to |lines|
      invariant paths == NamedPaths(lines[..i])
      invariant forall line :: line in lines[..i] ==> !HeaderOf(line).Unsafe?
    {
      assert lines[..i + 1] == lines[..i] + [lines[i]];
      match HeaderOf(lines[i])
      case NotHeader =>
      case DevNull =>
      case Unsafe => return Err(UnsafeDiffPath);
      case Names(path) =>
        paths := paths + {path};
        assert NamedPaths(lines[..i + 1]) == NamedPaths(lines[..i]) + {path};
    }
    assert lines[..|lines|] == lines;
    if paths == {} {
      return Err(NoChangedPaths);
    }
    return Ok(Lex.Sorted(paths));
  }

  // The answer is the one ascending list of the named paths, so two diffs that name the same paths
  // agree, however their headers are ordered or repeated.
  lemma ChangedPathsAre(lines: seq<string>, paths: seq<string>)
    ensures ChangedPathsOf(lines) == Ok(paths) <==>
              && (forall line :: line in lines ==> !HeaderOf(line).Unsafe?) && paths != [] && Lex.Ascending(paths)
              && forall p :: p in paths <==> exists line :: line in lines && HeaderOf(line) == Names(p)
  {
    hide Lex.Ascending, HeaderOf;
    var named := NamedPaths(lines);
    assert forall p :: p in named <==> exists line :: line in lines && HeaderOf(line) == Names(p);
    Lex.OneSorting(named, paths);
    if paths != [] {
      assert paths[0] in paths;
    }
    if p :| p in named {
      assert p in Lex.Sorted(named);
    }
  }

  // Every reported path is relative, climbs nowhere, is in normal form, and the list has no repeats.
  lemma ChangedPathsAreSafe(diff: string)
    requires ChangedPaths(diff).Ok?
    ensures ChangedPaths(diff).value != [] && Lex.Ascending(ChangedPaths(diff).value)
    ensures forall p :: p in ChangedPaths(diff).value ==> p != "" && p[0] != '/' && Safe(p) && Parts(p) == Split(p, '/')
    ensures forall p, piece :: p in ChangedPaths(diff).value && piece in Split(p, '/') ==> piece != "" && piece != "." && piece != ".."
  {
    hide Lex.Ascending;
    var paths := ChangedPaths(diff).value;
    forall p | p in paths ensures p != "" && p[0] != '/' && Safe(p) && Parts(p) == Split(p, '/') && ".." !in Split(p, '/') {
      NamedPathIsNormal(diff, p);
    }
    forall p, piece | p in paths && piece in Split(p, '/') ensures piece != "" && piece != "." && piece != ".." {
      assert IsPart(piece);
    }
  }

  lemma NamedPathIsNormal(diff: string, p: string)
    requires ChangedPaths(diff).Ok? && p in ChangedPaths(diff).value
    ensures p != "" && p[0] != '/' && Safe(p) && Parts(p) == Split(p, '/') && ".." !in Split(p, '/')
  {
    hide Split, SplitLines, Lex.Ascending;
    var line :| line in SplitLines(diff) && HeaderOf(line) == Names(p);
    var field := Before(line[4..], '\t');
    var raw := if StartsWith(field, "a/") || StartsWith(field, "b/") then field[2..] else field;
    PartsOfJoin(Parts(raw));
    assert IsPart(Parts(raw)[0]);
    PartsOfNormal(p);
  }

  // ---- in characters -----------------------------------------------------

  // The parts of a path are its pieces between slashes, without the empty ones and the single dots.
  lemma {:induction false} KeptParts(pieces: seq<string>, p: string)
    ensures p in KeepParts(pieces) <==> p in pieces && p != "" && p != "."
  {
    if pieces != [] {
      KeptParts(pieces[1..], p);
      assert pieces == [pieces[0]] + pieces[1..];
    }
  }

  // A path is refused exactly when it starts with a slash or has a piece that is two dots.
  lemma SafeIs(raw: string)
    ensures Safe(raw) <==> (raw == "" || raw[0] != '/') && ".." !in Split(raw, '/')
  {
    KeptParts(Split(raw, '/'), "..");
    assert |".."| == 2 && |"."| == 1;
  }

  // A path in normal form has its pieces as parts.
  lemma PartsOfNormal(p: string)
    requires p != "" && Join(Parts(p), '/') == p
    ensures Parts(p) == Split(p, '/')
  {
    assert Parts(p) != [];
    assert forall i :: 0 <= i < |Parts(p)| ==> IsPart(Parts(p)[i]) by {
      assert forall i :: 0 <= i < |Parts(p)| ==> Parts(p)[i] in Parts(p);
    }
    SplitJoin(Parts(p), '/');
  }

  // What a header line says, from its mark to a tab or its end.
  lemma HeaderReads(mark: string, field: string, rest: string)
    requires mark == "--- " || mark == "+++ "
    requires '\t' !in field && (rest == "" || rest[0] == '\t')
    ensures HeaderOf(mark + field + rest) == if field == "/dev/null" then DevNull else HeaderOfPath(WithoutSide(field))
  {
    hide Safe, Parts, Before, IsAbsolute, Split, Join, HeaderOfPath, WithoutSide;
    var line := mark + field + rest;
    assert line[..4] == mark && line[4..] == field + rest;
    BeforeTab(field, rest);
    HeaderOfPathIs(WithoutSide(field));
    SidesAre(field);
  }

  lemma SidesAre(field: string)
    ensures WithoutSide(field) == if StartsWith(field, "a/") || StartsWith(field, "b/") then field[2..] else field
  {
    assert |field| >= 2 ==> field[..2] == [field[0], field[1]];
  }

  lemma {:induction false} BeforeTab(field: string, rest: string)
    requires '\t' !in field && (rest == "" || rest[0] == '\t')
    ensures Before(field + rest, '\t') == field
  {
    if field == "" {
      assert field + rest == rest;
    } else {
      assert (field + rest)[1..] == field[1..] + rest;
      BeforeTab(field[1..], rest);
    }
  }

  // `a/…` and `b/…` name the file on either side.
  function WithoutSide(field: string): string
  {
    if |field| >= 2 && (field[0] == 'a' || field[0] == 'b') && field[1] == '/' then field[2..] else field
  }

  function HeaderOfPath(raw: string): Header
  {
    if raw == "" || raw[0] == '/' || ".." in Split(raw, '/') || Parts(raw) == [] then Unsafe else Names(Join(Parts(raw), '/'))
  }

  lemma HeaderOfPathIs(raw: string)
    ensures HeaderOfPath(raw) == if raw == "" || !Safe(raw) || Parts(raw) == [] then Unsafe else Names(Join(Parts(raw), '/'))
  {
    SafeIs(raw);
  }

  // Any other line names nothing.
  lemma OtherLines(line: string)
    requires !(exists rest :: line == "--- " + rest) && !(exists rest :: line == "+++ " + rest)
    ensures HeaderOf(line) == NotHeader
  {
    StartsWithIs(line, "--- ");
    StartsWithIs(line, "+++ ");
  }
}
