/**
 The context sanitizer: untrusted text is wrapped in a pair of tags after every look-alike of the
 tags inside it has been rewritten, and the result is put into a prompt template.
 */
module Sanitizer {
  import opened Wrappers
  import PyText

  const NAME := "untrusted_data"
  const OPEN := "<untrusted_data>"
  const CLOSE := "</untrusted_data>"
  const PLACEHOLDER := "{untrusted_data}"

  // The word characters of `\b`: letters, digits and underscore of every script. Only this is
  // used: white space and the characters below are not among them.
  type WordClass = f: char -> bool | (forall c :: PyText.IsSpace(c) ==> !f(c)) && !f('<') && !f('>') && !f('&') && !f('{')
    witness c => c == '_'

  const IsWord: WordClass

  // ---- the pattern, as a language ----------------------------------------

  // Letters alike up to case; the long s is an s.
  predicate SameLetter(c: char, letter: char)
    requires letter in NAME
  {
    c == letter || (letter != '_' && c as int + 32 == letter as int) || (letter == 's' && c as int == 0x17f)
  }

  predicate IsName(s: string)
  {
    |s| == |NAME| && forall i :: 0 <= i < |NAME| ==> SameLetter(s[i], NAME[i])
  }

  // Capital letters made small, and the long s made an s: what a comparison that ignores case compares.
  function FoldChar(c: char): char
  {
    if 'A' <= c <= 'Z' then (c as int + 32) as char else if c as int == 0x17f then 's' else c
  }

  function Fold(s: string): (r: string)
    ensures |r| == |s|
  {
    seq(|s|, i requires 0 <= i < |s| => FoldChar(s[i]))
  }

  lemma NameIs(s: string)
    ensures IsName(s) <==> Fold(s) == "untrusted_data"
  {
    var name := "untrusted_data";
    assert forall i {:trigger name[i]} :: 0 <= i < 14 ==> (name[i] == '_' || 'a' <= name[i] <= 'z') && name[i] == NAME[i];
    if |s| == 14 {
      forall i | 0 <= i < 14 ensures SameLetter(s[i], NAME[i]) <==> Fold(s)[i] == name[i] {
        OneLetter(s[i], name[i]);
      }
    }
  }

  lemma OneLetter(c: char, letter: char)
    requires letter in NAME && (letter == '_' || 'a' <= letter <= 'z')
    ensures SameLetter(c, letter) <==> FoldChar(c) == letter
  {
  }

  // `\b` after a word character, before s.
  predicate Boundary(s: string)
  {
    s == "" || !IsWord(s[0])
  }

  // `<\s*/?\s*untrusted_data` followed by a boundary takes the first h characters of s.
  ghost predicate HeadMatches(s: string, h: nat)
  {
    && h <= |s| && Boundary(s[h..])
    && exists a, slash, b, name :: IsHead(a, slash, b, name) && s[..h] == HeadText(a, slash, b, name)
  }

  function HeadText(a: string, slash: string, b: string, name: string): string
  {
    "<" + (a + (slash + (b + name)))
  }

  ghost predicate IsHead(a: string, slash: string, b: string, name: string)
  {
    PyText.Blank(a) && (slash == "" || slash == "/") && PyText.Blank(b) && Fold(name) == "untrusted_data"
  }

  // Then `[^>]*` and `>?`.
  predicate TailMatches(s: string)
  {
    '>' !in s || (s[|s| - 1] == '>' && '>' !in s[..|s| - 1])
  }

  // The whole pattern takes the first k characters of s.
  ghost predicate PatternMatches(s: string, k: nat)
  {
    k <= |s| && exists h: nat :: h <= k && HeadMatches(s, h) && TailMatches(s[h..k])
  }

  // ---- the matcher -------------------------------------------------------

  function SpacesLength(s: string): (n: nat)
    ensures n <= |s| && PyText.Blank(s[..n]) && (n < |s| ==> !PyText.IsSpace(s[n]))
  {
    if s == "" || !PyText.IsSpace(s[0]) then 0 else 1 + SpacesLength(s[1..])
  }

  predicate StartsWithName(s: string)
  {
    |s| >= |NAME| && IsName(s[..|NAME|])
  }

  // Where the name must start.
  function NameStart(s: string): (k: nat)
    requires s != "" && s[0] == '<'
    ensures 1 <= k <= |s|
  {
    var k1 := 1 + SpacesLength(s[1..]);
    if k1 < |s| && s[k1] == '/' then k1 + 1 + SpacesLength(s[k1 + 1..]) else k1
  }

  predicate StartsTag(s: string)
  {
    && s != "" && s[0] == '<' && StartsWithName(s[NameStart(s)..])
    && Boundary(s[NameStart(s) + |NAME|..])
  }

  // Up to and including the first '>', or everything.
  function TailLength(s: string): (n: nat)
    ensures n <= |s| && TailMatches(s[..n]) && ('>' !in s[..n] ==> n == |s|)
  {
    if s == "" then 0 else if s[0] == '>' then 1 else
      var n := TailLength(s[1..]);
      assert s[..1 + n] == [s[0]] + s[1..][..n];
      assert n > 0 ==> s[..n] == [s[0]] + s[1..][..n - 1];
      1 + n
  }

  function TagLength(s: string): (k: nat)
    requires StartsTag(s)
    ensures 0 < k <= |s|
  {
    var h := NameStart(s) + |NAME|;
    h + TailLength(s[h..])
  }

  // ---- rewriting ---------------------------------------------------------

  function Escape(s: string): string
  {
    if s == "" then ""
    else if s[0] == '<' then "&lt;" + Escape(s[1..])
    else if s[0] == '>' then "&gt;" + Escape(s[1..])
    else [s[0]] + Escape(s[1..])
  }

  // `_TAG_FORGERY.sub(_escape_tag, s)`: leftmost matches, none overlapping.
  function Neutralize(s: string): string
    decreases |s|
  {
    if s == "" then ""
    else if StartsTag(s) then Escape(s[..TagLength(s)]) + Neutralize(s[TagLength(s)..])
    else [s[0]] + Neutralize(s[1..])
  }

  function Wrap(content: string): string
  {
    OPEN + ("\n" + (Neutralize(content) + ("\n" + CLOSE)))
  }

  // The matches a left-to-right scan finds.
  function Matches(s: string): seq<string>
    decreases |s|
  {
    if s == "" then []
    else if StartsTag(s) then [s[..TagLength(s)]] + Matches(s[TagLength(s)..])
    else Matches(s[1..])
  }

  // `str.replace`.
  function Replace(s: string, target: string, value: string): string
    requires target != ""
    decreases |s|
  {
    if |s| < |target| then s
    else if s[..|target|] == target then value + Replace(s[|target|..], target, value)
    else [s[0]] + Replace(s[1..], target, value)
  }

  function Count(s: string, target: string): nat
    requires target != ""
    decreases |s|
  {
    if |s| < |target| then 0
    else if s[..|target|] == target then 1 + Count(s[|target|..], target)
    else Count(s[1..], target)
  }

  datatype TemplateError = NoPlaceholder | HasTag

  function BuildPrompt(template: string, untrusted: string): Result<string, TemplateError>
  {
    if Count(template, PLACEHOLDER) == 0 then Err(NoPlaceholder)
    else if Matches(template) != [] then Err(HasTag)
    else Ok(Replace(template, PLACEHOLDER, Wrap(untrusted)))
  }

  // ---- the matcher decides the language ----------------------------------

  lemma {:induction false} SpacesLengthOf(a: string, t: string)
    requires PyText.Blank(a) && (t == "" || !PyText.IsSpace(t[0]))
    ensures SpacesLength(a + t) == |a|
  {
    if a == "" {
      assert a + t == t;
    } else {
      assert (a + t)[1..] == a[1..] + t;
      SpacesLengthOf(a[1..], t);
    }
  }

  lemma Regroup(a: string, slash: string, b: string, name: string, rest: string)
    ensures HeadText(a, slash, b, name) + rest == "<" + (a + (slash + (b + (name + rest))))
  {
    assert (b + name) + rest == b + (name + rest);
    assert (slash + (b + name)) + rest == slash + ((b + name) + rest);
    assert (a + (slash + (b + name))) + rest == a + ((slash + (b + name)) + rest);
  }

  lemma AfterSpaces(a: string, t: string)
    requires PyText.Blank(a) && (t == "" || !PyText.IsSpace(t[0]))
    ensures SpacesLength(a + t) == |a| && (a + t)[|a|..] == t && (t != "" ==> (a + t)[|a|] == t[0])
  {
    SpacesLengthOf(a, t);
  }

  predicate StartsWord(t: string)
  {
    t != "" && !PyText.IsSpace(t[0]) && t[0] != '/'
  }

  lemma WithoutSlash(s: string, a: string, t: string)
    requires s == "<" + (a + t) && PyText.Blank(a) && StartsWord(t)
    ensures NameStart(s) == 1 + |a| && s[NameStart(s)..] == t
  {
    hide PyText.Blank, SpacesLength;
    AfterSpaces(a, t);
    assert s[1..] == a + t;
    assert s[1 + |a|..] == s[1..][|a|..];
  }

  lemma WithSlash(s: string, a: string, b: string, t: string)
    requires s == "<" + (a + ("/" + (b + t))) && PyText.Blank(a) && PyText.Blank(b) && StartsWord(t)
    ensures NameStart(s) == 2 + |a| + |b| && s[NameStart(s)..] == t
  {
    hide PyText.Blank, SpacesLength;
    AfterSpaces(a, "/" + (b + t));
    assert s[1..] == a + ("/" + (b + t));
    assert s[1 + |a|..] == s[1..][|a|..] == "/" + (b + t);
    assert s[2 + |a|..] == s[1 + |a|..][1..] == b + t;
    AfterSpaces(b, t);
    assert s[2 + |a| + |b|..] == s[2 + |a|..][|b|..];
  }

  // A head fixes where its name starts.
  lemma HeadNameStart(s: string, a: string, slash: string, b: string, name: string, rest: string)
    requires IsHead(a, slash, b, name) && s == HeadText(a, slash, b, name) + rest
    ensures s != "" && s[0] == '<' && NameStart(s) == 1 + |a| + |slash| + |b| && s[NameStart(s)..] == name + rest
  {
    hide PyText.Blank, IsName, NameStart, HeadText, Fold;
    Regroup(a, slash, b, name, rest);
    NameIs(name);
    NameIsNotSpace(name);
    var t := name + rest;
    if slash == "" {
      JoinSpaces(a, b);
      assert slash + (b + t) == b + t && a + (b + t) == (a + b) + t;
      WithoutSlash(s, a + b, t);
    } else {
      WithSlash(s, a, b, t);
    }
  }

  lemma NameIsNotSpace(name: string)
    requires IsName(name)
    ensures name != "" && !PyText.IsSpace(name[0]) && name[0] != '/'
  {
  }

  lemma JoinSpaces(a: string, b: string)
    requires PyText.Blank(a) && PyText.Blank(b)
    ensures PyText.Blank(a + b)
  {
  }

  lemma HeadFound(s: string, h: nat)
    requires HeadMatches(s, h)
    ensures StartsTag(s) && h == NameStart(s) + |NAME|
  {
    var a, slash, b, name :| IsHead(a, slash, b, name) && s[..h] == HeadText(a, slash, b, name);
    assert s == s[..h] + s[h..];
    HeadNameStart(s, a, slash, b, name, s[h..]);
    NameIs(name);
    assert (name + s[h..])[..|NAME|] == name;
  }

  // The text before the name.
  lemma BeforeName(s: string) returns (a: string, slash: string, b: string)
    requires s != "" && s[0] == '<'
    ensures PyText.Blank(a) && (slash == "" || slash == "/") && PyText.Blank(b)
    ensures s[..NameStart(s)] == "<" + (a + (slash + b))
  {
    hide PyText.Blank, SpacesLength;
    var k, k1 := NameStart(s), 1 + SpacesLength(s[1..]);
    a := s[1..][..k1 - 1];
    assert s[..k1] == "<" + a;
    if k1 < |s| && s[k1] == '/' {
      slash, b := "/", s[k1 + 1..][..k - k1 - 1];
      assert s[k1..k] == slash + b;
      assert s[..k] == s[..k1] + s[k1..k];
    } else {
      slash, b := "", "";
      assert PyText.Blank("") by { NoSpaces(); }
      assert slash + b == "" && a + "" == a;
    }
  }

  lemma NoSpaces()
    ensures PyText.Blank("")
  {
  }

  lemma FoundIsHead(s: string)
    requires StartsTag(s)
    ensures HeadMatches(s, NameStart(s) + |NAME|)
  {
    hide PyText.Blank, IsName, NameStart;
    var a, slash, b := BeforeName(s);
    var k := NameStart(s);
    var h, name := k + |NAME|, s[k..][..|NAME|];
    assert s[..h] == s[..k] + name;
    Regroup(a, slash, b, "", name);
    assert b + "" == b;
    assert "" + name == name;
    NameIs(name);
    assert IsHead(a, slash, b, name) && s[..h] == HeadText(a, slash, b, name);
  }

  // The pattern matches at the start of s exactly when the matcher says so, and the matcher's
  // length is the longest the pattern allows, which is the one a greedy match takes.
  lemma MatcherIsThePattern(s: string)
    ensures StartsTag(s) <==> exists k: nat :: PatternMatches(s, k)
    ensures StartsTag(s) ==> PatternMatches(s, TagLength(s)) && forall k: nat :: PatternMatches(s, k) ==> k <= TagLength(s)
  {
    hide HeadMatches, TailMatches, NameStart;
    if StartsTag(s) {
      FoundIsHead(s);
      var h := NameStart(s) + |NAME|;
      var n := TailLength(s[h..]);
      assert s[h..h + n] == s[h..][..n];
      assert PatternMatches(s, TagLength(s));
    }
    forall k: nat | PatternMatches(s, k) ensures StartsTag(s) && k <= TagLength(s) {
      var h: nat :| h <= k && HeadMatches(s, h) && TailMatches(s[h..k]);
      HeadFound(s, h);
      assert s[h..][..k - h] == s[h..k];
      LongestTail(s[h..], k - h);
    }
  }

  // No other tail is longer.
  lemma {:induction false} LongestTail(s: string, n: nat)
    requires n <= |s| && TailMatches(s[..n])
    ensures n <= TailLength(s)
  {
    if n > 1 {
      assert s[..n][..n - 1] == [s[0]] + s[1..n - 1];
    }
    if n > 0 && s[0] != '>' {
      assert s[..n] == [s[0]] + s[1..][..n - 1];
      LongestTail(s[1..], n - 1);
    }
  }

  // ---- a head does not reach across a seam -------------------------------

  // Text that cannot complete a head begun before it: white space, then the end or a character
  // that is neither part of the name nor a word character nor a slash.
  predicate Blocks(t: string)
  {
    t == "" || (if PyText.IsSpace(t[0]) then Blocks(t[1..]) else t[0] == '<' || t[0] == '&' || t[0] == '{')
  }

  lemma {:induction false} SpacesAcross(z: string, t: string)
    requires Blocks(t)
    ensures SpacesLength(z) < |z| ==> SpacesLength(z + t) == SpacesLength(z)
    ensures SpacesLength(z) == |z| ==>
              SpacesLength(z + t) >= |z| && !StartsWithName((z + t)[SpacesLength(z + t)..])
              && (SpacesLength(z + t) < |z + t| ==> (z + t)[SpacesLength(z + t)] != '/')
  {
    if z == "" {
      assert z + t == t;
      BlockedName(t);
    } else if PyText.IsSpace(z[0]) {
      assert (z + t)[1..] == z[1..] + t;
      SpacesAcross(z[1..], t);
      assert (z + t)[SpacesLength(z + t)..] == (z[1..] + t)[SpacesLength(z[1..] + t)..];
    }
  }

  lemma {:induction false} BlockedName(t: string)
    requires Blocks(t)
    ensures !StartsWithName(t[SpacesLength(t)..])
    ensures SpacesLength(t) < |t| ==> t[SpacesLength(t)] != '/'
  {
    if t != "" && PyText.IsSpace(t[0]) {
      BlockedName(t[1..]);
      assert t[SpacesLength(t)..] == t[1..][SpacesLength(t[1..])..];
    }
  }

  lemma NameAcross(z: string, t: string)
    requires Blocks(t)
    ensures StartsWithName(z + t) <==> StartsWithName(z)
    ensures StartsWithName(z) ==> (Boundary((z + t)[|NAME|..]) <==> Boundary(z[|NAME|..]))
  {
    var n := |NAME|;
    if |z| >= n {
      assert (z + t)[..n] == z[..n];
      assert (z + t)[n..] == z[n..] + t;
    } else if |z + t| >= n {
      assert (z + t)[..n][|z|] == t[0];
      assert !SameLetter(t[0], NAME[|z|]);
    }
  }

  lemma NameStartAcross(z: string, t: string)
    requires z != "" && z[0] == '<' && Blocks(t)
    ensures NameStart(z) < |z| ==> NameStart(z + t) == NameStart(z)
    ensures NameStart(z) == |z| ==> NameStart(z + t) >= |z| && !StartsWithName((z + t)[NameStart(z + t)..])
  {
    hide Blocks, StartsWithName, SpacesLength;
    var s := z + t;
    assert s[1..] == z[1..] + t;
    SpacesAcross(z[1..], t);
    var k1 := 1 + SpacesLength(z[1..]);
    if k1 == |z| {
      var k := 1 + SpacesLength(s[1..]);
      assert s[k..] == s[1..][k - 1..];
    } else if z[k1] == '/' {
      assert s[k1 + 1..] == z[k1 + 1..] + t;
      SpacesAcross(z[k1 + 1..], t);
      var k := k1 + 1 + SpacesLength(s[k1 + 1..]);
      assert s[k..] == s[k1 + 1..][k - k1 - 1..];
    }
  }

  // Whether a tag starts at the start of z is decided within z.
  lemma HeadAcross(z: string, t: string)
    requires z != "" && Blocks(t)
    ensures StartsTag(z + t) <==> StartsTag(z)
  {
    hide Blocks, StartsWithName, NameStart, Boundary;
    if z[0] == '<' {
      NameStartAcross(z, t);
      EmptyIsNoName();
      if NameStart(z) < |z| {
        HeadAt(z, t, NameStart(z));
      } else {
        assert z[|z|..] == "";
      }
    }
  }

  lemma EmptyIsNoName()
    ensures !StartsWithName("")
  {
  }

  lemma HeadAt(z: string, t: string, k: nat)
    requires Blocks(t) && k <= |z|
    ensures StartsWithName((z + t)[k..]) <==> StartsWithName(z[k..])
    ensures StartsWithName(z[k..]) ==> (Boundary((z + t)[k + |NAME|..]) <==> Boundary(z[k + |NAME|..]))
  {
    assert (z + t)[k..] == z[k..] + t;
    NameAcross(z[k..], t);
    if StartsWithName(z[k..]) {
      assert (z + t)[k + |NAME|..] == (z[k..] + t)[|NAME|..];
      assert z[k + |NAME|..] == z[k..][|NAME|..];
    }
  }

  // ---- rewritten text holds no tag ---------------------------------------

  ghost predicate TagFree(s: string)
  {
    forall p :: 0 <= p < |s| ==> !StartsTag(s[p..])
  }

  // No tag starts in s, also when t follows.
  ghost predicate TagFreeBefore(s: string, t: string)
  {
    forall p :: 0 <= p < |s| ==> !StartsTag((s + t)[p..])
  }

  lemma {:induction false} EscapeHasNoAngle(s: string)
    ensures '<' !in Escape(s) && '>' !in Escape(s)
    ensures s != "" && s[0] == '<' ==> Escape(s) != "" && Escape(s)[0] == '&'
  {
    if s != "" {
      EscapeHasNoAngle(s[1..]);
    }
  }

  lemma EscapedTag(s: string)
    requires StartsTag(s)
    ensures Escape(s[..TagLength(s)]) != "" && Escape(s[..TagLength(s)])[0] == '&' && '<' !in Escape(s[..TagLength(s)])
  {
    hide TagLength;
    EscapeHasNoAngle(s[..TagLength(s)]);
  }

  // Up to the first match nothing changes; there the rewritten text goes on with an entity.
  lemma {:induction false} CommonStart(s: string) returns (z: string, u: string, v: string)
    ensures s == z + u && Neutralize(s) == z + v
    ensures u == "" <==> v == ""
    ensures u != "" ==> StartsTag(u) && v[0] == '&'
    ensures s != "" && !StartsTag(s) ==> z != ""
    decreases |s|
  {
    hide StartsTag, TagLength, Escape;
    if s == "" {
      z, u, v := "", "", "";
    } else if StartsTag(s) {
      z, u, v := "", s, Neutralize(s);
      EscapedTag(s);
    } else {
      z, u, v := CommonStart(s[1..]);
      z := [s[0]] + z;
      assert s == [s[0]] + s[1..];
    }
  }

  lemma {:induction false} NeutralizedBefore(s: string, t: string)
    requires Blocks(t)
    ensures TagFreeBefore(Neutralize(s), t)
    decreases |s|
  {
    hide StartsTag, TagLength, Escape;
    if s == "" {
    } else if StartsTag(s) {
      EscapedTag(s);
      NeutralizedBefore(s[TagLength(s)..], t);
      PrependInert(Escape(s[..TagLength(s)]), Neutralize(s[TagLength(s)..]), t);
    } else {
      hide TagFreeBefore;
      NeutralizedBefore(s[1..], t);
      NotATagAfter(s, t);
      PrependOne(s[0], Neutralize(s[1..]), t);
    }
  }

  // A character that starts no tag starts none after rewriting.
  lemma NotATagAfter(s: string, t: string)
    requires s != "" && !StartsTag(s) && Blocks(t)
    ensures !StartsTag(Neutralize(s) + t)
  {
    hide StartsTag, Neutralize;
    var z, u, v := CommonStart(s);
    if v == "" {
      assert Neutralize(s) == z && s == z;
      HeadAcross(z, t);
    } else {
      TagBlocks(u);
      HeadAcross(z, u);
      HeadAcross(z, v + t);
      assert Neutralize(s) + t == z + (v + t);
    }
  }

  lemma TagBlocks(u: string)
    requires StartsTag(u)
    ensures Blocks(u)
  {
  }

  lemma PrependInert(e: string, s: string, t: string)
    requires '<' !in e && TagFreeBefore(s, t)
    ensures TagFreeBefore(e + s, t)
  {
    forall p | 0 <= p < |e + s| ensures !StartsTag((e + s + t)[p..]) {
      if p < |e| {
        assert (e + s + t)[p..][0] == e[p];
      } else {
        assert (e + s + t)[p..] == (s + t)[p - |e|..];
      }
    }
  }

  lemma PrependOne(c: char, s: string, t: string)
    requires !StartsTag([c] + s + t) && TagFreeBefore(s, t)
    ensures TagFreeBefore([c] + s, t)
  {
    forall p | 0 <= p < |[c] + s| ensures !StartsTag(([c] + s + t)[p..]) {
      if p == 0 {
        assert ([c] + s + t)[0..] == [c] + s + t;
      } else {
        assert ([c] + s + t)[p..] == (s + t)[p - 1..];
      }
    }
  }

  // For every content, the rewritten text contains no match of the pattern.
  lemma NeutralizedIsTagFree(s: string)
    ensures TagFree(Neutralize(s))
  {
    NeutralizedBefore(s, "");
    assert Neutralize(s) + "" == Neutralize(s);
  }
}
