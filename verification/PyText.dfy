/** The parts of Python's text handling that the source relies on. */
module PyText {

  // str.isspace, as used by str.strip and by `\s`.
  predicate IsSpace(c: char)
  {
    var n := c as int;
    || 0x09 <= n <= 0x0d || 0x1c <= n <= 0x20 || n == 0x85 || n == 0xa0 || n == 0x1680
    || 0x2000 <= n <= 0x200a || n == 0x2028 || n == 0x2029 || n == 0x202f || n == 0x205f || n == 0x3000
  }

  function TrimLeft(s: string): string
  {
    if s != "" && IsSpace(s[0]) then TrimLeft(s[1..]) else s
  }

  function TrimRight(s: string): string
  {
    if s != "" && IsSpace(s[|s| - 1]) then TrimRight(s[..|s| - 1]) else s
  }

  function Strip(s: string): string
  {
    TrimRight(TrimLeft(s))
  }

  predicate IsLineBreak(c: char)
  {
    var n := c as int;
    0x0a <= n <= 0x0d || 0x1c <= n <= 0x1e || n == 0x85 || n == 0x2028 || n == 0x2029
  }

  // The length of the first line, its line break not counted.
  function LineLength(s: string): (k: nat)
    ensures k <= |s| && (k < |s| ==> IsLineBreak(s[k]))
  {
    if s == "" || IsLineBreak(s[0]) then 0 else 1 + LineLength(s[1..])
  }

  function SplitLines(s: string): seq<string>
    decreases |s|
  {
    if s == "" then []
    else
      var k := LineLength(s);
      if k == |s| then [s]
      else
        var crlf := s[k] == '\r' && k + 1 < |s| && s[k + 1] == '\n';
        [s[..k]] + SplitLines(s[k + (if crlf then 2 else 1)..])
  }

  predicate StartsWith(s: string, prefix: string)
  {
    |s| >= |prefix| && s[..|prefix|] == prefix
  }

  // The text before the first `sep`, or all of it.
  function Before(s: string, sep: char): string
  {
    if s == "" || s[0] == sep then "" else [s[0]] + Before(s[1..], sep)
  }

  function Split(s: string, sep: char): (parts: seq<string>)
    ensures parts != []
    ensures forall i :: 0 <= i < |parts| ==> sep !in parts[i]
  {
    if s == "" then [""]
    else if s[0] == sep then [""] + Split(s[1..], sep)
    else
      var rest := Split(s[1..], sep);
      [[s[0]] + rest[0]] + rest[1..]
  }

  function Join(parts: seq<string>, sep: char): string
  {
    if parts == [] then ""
    else if |parts| == 1 then parts[0]
    else parts[0] + [sep] + Join(parts[1..], sep)
  }

  lemma {:induction false} SplitPiece(p: string, rest: string, sep: char)
    requires sep !in p
    ensures Split(p, sep) == [p]
    ensures Split(p + [sep] + rest, sep) == [p] + Split(rest, sep)
  {
    var s := p + [sep] + rest;
    if p == "" {
      assert s[1..] == rest;
    } else {
      assert p[0] in p;
      assert s[1..] == p[1..] + [sep] + rest;
      SplitPiece(p[1..], rest, sep);
      assert [p[0]] + p[1..] == p;
    }
  }

  lemma {:induction false} SplitJoin(parts: seq<string>, sep: char)
    requires parts != [] && forall i :: 0 <= i < |parts| ==> sep !in parts[i]
    ensures Split(Join(parts, sep), sep) == parts
  {
    if |parts| == 1 {
      SplitPiece(parts[0], "", sep);
    } else {
      SplitPiece(parts[0], Join(parts[1..], sep), sep);
      SplitJoin(parts[1..], sep);
      assert parts == [parts[0]] + parts[1..];
    }
  }

  // ---- what these functions mean -----------------------------------------

  // The code points of white space, one by one.
  lemma SpacesAre(c: char)
    ensures IsSpace(c) <==>
              c as int in {0x09, 0x0a, 0x0b, 0x0c, 0x0d, 0x1c, 0x1d, 0x1e, 0x1f, 0x20, 0x85, 0xa0, 0x1680, 0x2000, 0x2001, 0x2002,
                           0x2003, 0x2004, 0x2005, 0x2006, 0x2007, 0x2008, 0x2009, 0x200a, 0x2028, 0x2029, 0x202f, 0x205f, 0x3000}
  {
  }

  // The code points that end a line.
  lemma BreaksAre(c: char)
    ensures IsLineBreak(c) <==> c as int in {0x0a, 0x0b, 0x0c, 0x0d, 0x1c, 0x1d, 0x1e, 0x85, 0x2028, 0x2029}
  {
  }

  ghost predicate Blank(s: string)
  {
    forall i :: 0 <= i < |s| ==> IsSpace(s[i])
  }

  predicate Trimmed(s: string)
  {
    s == "" || (!IsSpace(s[0]) && !IsSpace(s[|s| - 1]))
  }

  // m is s without white space at its ends.
  ghost predicate IsStripped(s: string, m: string)
  {
    Trimmed(m) && exists a, b :: Blank(a) && Blank(b) && s == a + m + b
  }

  lemma {:induction false} TrimLeftIs(s: string) returns (a: string)
    ensures Blank(a) && s == a + TrimLeft(s) && (TrimLeft(s) == "" || !IsSpace(TrimLeft(s)[0]))
  {
    a := "";
    if s != "" && IsSpace(s[0]) {
      var rest := TrimLeftIs(s[1..]);
      a := [s[0]] + rest;
      assert s == [s[0]] + s[1..];
    }
  }

  lemma {:induction false} TrimRightIs(s: string) returns (b: string)
    ensures Blank(b) && s == TrimRight(s) + b && (TrimRight(s) == "" || !IsSpace(TrimRight(s)[|TrimRight(s)| - 1]))
  {
    hide IsSpace;
    b := "";
    if s != "" && IsSpace(s[|s| - 1]) {
      var init, last := s[..|s| - 1], [s[|s| - 1]];
      var rest := TrimRightIs(init);
      b := rest + last;
      assert (TrimRight(init) + rest) + last == TrimRight(init) + b;
      assert s == init + last;
    } else {
      assert s + "" == s;
    }
  }

  // Stripping takes the white space off both ends, all of it, and nothing else.
  lemma StripIs(s: string)
    ensures IsStripped(s, Strip(s))
  {
    hide IsSpace, TrimLeft, TrimRight;
    var l := TrimLeft(s);
    var a := TrimLeftIs(s);
    var b := TrimRightIs(l);
    var m := Strip(s);
    assert s == a + m + b;
    if m != "" {
      assert l[0] == m[0];
    }
  }

  // Where the stripped text stands.
  lemma StrippedExtent(s: string, a: string, m: string, b: string)
    requires Blank(a) && Blank(b) && Trimmed(m) && s == a + m + b
    ensures m == s[|a|..|a| + |m|]
    ensures forall i :: 0 <= i < |a| || |a| + |m| <= i < |s| ==> IsSpace(s[i])
    ensures m != "" ==> !IsSpace(s[|a|]) && !IsSpace(s[|a| + |m| - 1])
  {
    hide IsSpace;
    forall i | 0 <= i < |a| || |a| + |m| <= i < |s| ensures IsSpace(s[i]) {
      assert s[i] == if i < |a| then a[i] else b[i - |a| - |m|];
    }
  }

  // No other text is left.
  lemma StrippedOnce(s: string, m: string, n: string)
    requires IsStripped(s, m) && IsStripped(s, n)
    ensures m == n
  {
    hide IsSpace;
    var a, b :| Blank(a) && Blank(b) && s == a + m + b;
    var c, d :| Blank(c) && Blank(d) && s == c + n + d;
    StrippedExtent(s, a, m, b);
    StrippedExtent(s, c, n, d);
    assert m == "" <==> n == "";
    assert m != "" ==> |a| == |c| && |a| + |m| == |c| + |n|;
  }

  // Two texts that strip alike differ in white space at their ends only.
  ghost predicate SameButEnds(s: string, t: string)
  {
    exists m :: IsStripped(s, m) && IsStripped(t, m)
  }

  lemma StripAlike(s: string, t: string)
    ensures Strip(s) == Strip(t) <==> SameButEnds(s, t)
  {
    hide IsStripped, Strip;
    StripIs(s);
    StripIs(t);
    if m :| IsStripped(s, m) && IsStripped(t, m) {
      StrippedOnce(s, m, Strip(s));
      StrippedOnce(t, m, Strip(t));
    }
  }

  lemma StartsWithIs(s: string, prefix: string)
    ensures StartsWith(s, prefix) <==> exists rest :: s == prefix + rest
  {
    if StartsWith(s, prefix) {
      assert s == prefix + s[|prefix|..];
    }
  }

  // The text is cut where the separator first stands.
  lemma {:induction false} BeforeIs(s: string, sep: char)
    ensures var n := |Before(s, sep)|;
            n <= |s| && Before(s, sep) == s[..n] && sep !in s[..n] && (n < |s| ==> s[n] == sep)
  {
    if s != "" && s[0] != sep {
      BeforeIs(s[1..], sep);
      var n := |Before(s, sep)|;
      assert s[..n] == [s[0]] + s[1..][..n - 1];
    }
  }

  // Joining puts the separator between the parts, and splitting undoes it: the parts hold no separator.
  lemma {:induction false} JoinMore(parts: seq<string>, last: string, sep: char)
    ensures Join([last], sep) == last
    ensures parts != [] ==> Join(parts + [last], sep) == Join(parts, sep) + [sep] + last
  {
    if |parts| == 1 {
      assert (parts + [last])[1..] == [last] && (parts + [last])[0] == parts[0];
    } else if parts != [] {
      JoinMore(parts[1..], last, sep);
      assert (parts + [last])[1..] == parts[1..] + [last];
    }
  }

  lemma {:induction false} JoinSplit(s: string, sep: char)
    ensures Join(Split(s, sep), sep) == s
  {
    if s != "" {
      JoinSplit(s[1..], sep);
      var rest := Split(s[1..], sep);
      if s[0] == sep {
        assert ([""] + rest)[1..] == rest;
        assert s == [sep] + s[1..];
      } else {
        FirstCharacter(s[0], rest, sep);
        assert s == [s[0]] + s[1..];
      }
    }
  }

  lemma FirstCharacter(c: char, parts: seq<string>, sep: char)
    requires parts != []
    ensures Join([[c] + parts[0]] + parts[1..], sep) == [c] + Join(parts, sep)
  {
    var longer := [[c] + parts[0]] + parts[1..];
    assert longer[1..] == parts[1..];
    if |parts| > 1 {
      assert ([c] + parts[0]) + [sep] + Join(parts[1..], sep) == [c] + (parts[0] + [sep] + Join(parts[1..], sep));
    }
  }

  // ---- lines -------------------------------------------------------------

  // One line break, or none at the very end; a carriage return takes the line feed after it along.
  predicate IsEnd(end: string)
  {
    end == "" || (|end| == 1 && IsLineBreak(end[0])) || end == "\r\n"
  }

  function Woven(lines: seq<string>, ends: seq<string>): string
    requires |lines| == |ends|
  {
    if lines == [] then "" else lines[0] + ends[0] + Woven(lines[1..], ends[1..])
  }

  predicate NoBreak(line: string)
  {
    forall i :: 0 <= i < |line| ==> !IsLineBreak(line[i])
  }

  // The lines hold no line break; with one break after each, but perhaps not after the last, they are the text.
  ghost predicate AreLines(s: string, lines: seq<string>, ends: seq<string>)
  {
    && |lines| == |ends| && s == Woven(lines, ends)
    && (forall i :: 0 <= i < |lines| ==> NoBreak(lines[i]) && IsEnd(ends[i]))
    && (forall i :: 0 <= i < |lines| && ends[i] == "" ==> i == |lines| - 1 && lines[i] != "")
    && (forall i :: 0 <= i < |lines| && ends[i] == "\r" ==> !StartsWith(Woven(lines[i + 1..], ends[i + 1..]), "\n"))
  }

  lemma {:induction false} LineLengthIs(s: string)
    ensures NoBreak(s[..LineLength(s)])
  {
    hide IsLineBreak;
    if s != "" && !IsLineBreak(s[0]) {
      LineLengthIs(s[1..]);
      assert s[..LineLength(s)] == [s[0]] + s[1..][..LineLength(s[1..])];
    }
  }

  lemma {:induction false} LinesAre(s: string) returns (ends: seq<string>)
    ensures AreLines(s, SplitLines(s), ends)
    decreases |s|
  {
    hide IsLineBreak, LineLength, NoBreak, IsEnd;
    if s == "" {
      ends := [];
    } else {
      var k := LineLength(s);
      LineLengthIs(s);
      if k == |s| {
        ends := [""];
        EndsAre(s, k);
        assert s[..k] == s;
        LastLine(s);
      } else {
        var n := if s[k] == '\r' && k + 1 < |s| && s[k + 1] == '\n' then 2 else 1;
        EndsAre(s, k);
        var rest := s[k + n..];
        var more := LinesAre(rest);
        ends := [s[k..k + n]] + more;
        LinesMore(s, k, n, SplitLines(rest), more);
      }
    }
  }

  lemma LastLine(s: string)
    requires s != "" && NoBreak(s)
    ensures AreLines(s, [s], [""])
  {
    hide NoBreak;
    var lines, ends := [s], [""];
    assert lines[1..] == [] && ends[1..] == [] && Woven(lines, ends) == s + "" + Woven([], []);
    assert s + "" + "" == s;
    assert |"\r"| == 1;
  }

  lemma EndsAre(s: string, k: nat)
    requires k <= |s| && (k < |s| ==> IsLineBreak(s[k]))
    ensures IsEnd("")
    ensures k < |s| ==> IsEnd(s[k..k + 1])
    ensures k + 1 < |s| && s[k] == '\r' && s[k + 1] == '\n' ==> s[k..k + 2] == "\r\n" && IsEnd(s[k..k + 2])
  {
  }

  lemma LinesMore(s: string, k: nat, n: nat, lines: seq<string>, ends: seq<string>)
    requires 1 <= n <= 2 && k + n <= |s| && AreLines(s[k + n..], lines, ends)
    requires NoBreak(s[..k]) && IsEnd(s[k..k + n])
    requires n == 1 && s[k] == '\r' ==> !(k + 1 < |s| && s[k + 1] == '\n')
    requires n == 2 ==> s[k..k + 2] == "\r\n"
    ensures AreLines(s, [s[..k]] + lines, [s[k..k + n]] + ends)
  {
    hide NoBreak, IsEnd, Woven;
    var ls, es := [s[..k]] + lines, [s[k..k + n]] + ends;
    WovenFirst(s[..k], s[k..k + n], lines, ends);
    assert s == s[..k] + s[k..k + n] + s[k + n..];
    forall i | 0 <= i < |ls|
      ensures NoBreak(ls[i]) && IsEnd(es[i])
      ensures es[i] == "" ==> i == |ls| - 1 && ls[i] != ""
      ensures es[i] == "\r" ==> !StartsWith(Woven(ls[i + 1..], es[i + 1..]), "\n")
    {
      if i > 0 {
        assert ls[i] == lines[i - 1] && es[i] == ends[i - 1];
        assert ls[i + 1..] == lines[i..] && es[i + 1..] == ends[i..];
      } else {
        assert ls[1..] == lines && es[1..] == ends && |es[0]| == n;
        assert es[0] == "\r" ==> s[k] == '\r';
      }
    }
  }

  lemma WovenFirst(line: string, end: string, lines: seq<string>, ends: seq<string>)
    requires |lines| == |ends|
    ensures Woven([line] + lines, [end] + ends) == line + end + Woven(lines, ends)
  {
    assert ([line] + lines)[1..] == lines && ([end] + ends)[1..] == ends;
  }
}
