/** Prompts built by the sanitizer: exactly the tags it put in, and nothing of the content lost. */
module Prompt {
  import opened Sanitizer
  import PyText

  // ---- the matches of a text ---------------------------------------------

  lemma {:induction false} NoMatchIsTagFree(s: string)
    ensures Matches(s) == [] <==> TagFree(s)
    decreases |s|
  {
    hide StartsTag, TagLength;
    if s != "" {
      assert s[0..] == s;
      if !StartsTag(s) {
        NoMatchIsTagFree(s[1..]);
        forall p | 0 <= p < |s| ensures StartsTag(s[p..]) ==> p > 0 && StartsTag(s[1..][p - 1..]) {
          if p > 0 {
            assert s[p..] == s[1..][p - 1..];
          }
        }
        forall p | 0 <= p < |s[1..]| ensures s[1..][p..] == s[p + 1..] {
        }
      }
    }
  }

  lemma {:induction false} SkipTagFree(a: string, t: string)
    requires TagFreeBefore(a, t)
    ensures Matches(a + t) == Matches(t)
  {
    hide StartsTag, TagLength;
    if a == "" {
      assert a + t == t;
    } else {
      assert (a + t)[0..] == a + t && (a + t)[1..] == a[1..] + t;
      forall p | 0 <= p < |a[1..]| ensures !StartsTag((a[1..] + t)[p..]) {
        assert (a[1..] + t)[p..] == (a + t)[p + 1..];
      }
      SkipTagFree(a[1..], t);
    }
  }

  lemma NewlineBefore(t: string)
    ensures Matches("\n" + t) == Matches(t)
  {
    hide Matches;
    assert ("\n" + t)[0..] == "\n" + t;
    SkipTagFree("\n", t);
  }

  lemma OpenMatches(t: string)
    ensures Matches(OPEN + t) == [OPEN] + Matches(t)
  {
    var s := OPEN + t;
    assert s[1..][0] == 'u' && NameStart(s) == 1;
    assert s[1..][..|NAME|] == NAME;
    assert s[1 + |NAME|..] == ">" + t;
    assert s[..16] == OPEN && s[16..] == t;
  }

  lemma CloseMatches(t: string)
    ensures Matches(CLOSE + t) == [CLOSE] + Matches(t)
  {
    var s := CLOSE + t;
    assert s[1..][0] == '/' && s[2..][0] == 'u' && NameStart(s) == 2;
    assert s[2..][..|NAME|] == NAME;
    assert s[2 + |NAME|..] == ">" + t;
    assert s[..17] == CLOSE && s[17..] == t;
  }

  // ---- a wrapped content between its tags --------------------------------

  lemma WrapMatches(content: string, t: string)
    ensures Matches(Wrap(content) + t) == [OPEN, CLOSE] + Matches(t)
  {
    hide Matches, Neutralize;
    var n := Neutralize(content);
    var end := "\n" + (CLOSE + t);
    assert Wrap(content) + t == OPEN + ("\n" + (n + end)) by {
      WrapThen(n, t);
    }
    OpenMatches("\n" + (n + end));
    NewlineBefore(n + end);
    NeutralizedBefore(content, end);
    SkipTagFree(n, end);
    NewlineBefore(CLOSE + t);
    CloseMatches(t);
  }

  lemma WrapThen(n: string, t: string)
    ensures (OPEN + ("\n" + (n + ("\n" + CLOSE)))) + t == OPEN + ("\n" + (n + ("\n" + (CLOSE + t))))
  {
    var a, b := "\n" + CLOSE, n + ("\n" + CLOSE);
    assert a + t == "\n" + (CLOSE + t);
    assert b + t == n + (a + t);
    assert ("\n" + b) + t == "\n" + (b + t);
    Then(OPEN, "\n" + b, t);
  }

  lemma Then(a: string, b: string, c: string)
    ensures (a + b) + c == a + (b + c)
  {
  }

  // ---- a template with its placeholders replaced -------------------------

  function Pairs(k: nat): seq<string>
  {
    if k == 0 then [] else [OPEN, CLOSE] + Pairs(k - 1)
  }

  // Up to the first placeholder nothing changes; there a wrapped content starts.
  lemma {:induction false} ReplacedStart(s: string, w: string) returns (z: string, u: string, v: string)
    requires w != "" && w[0] == '<'
    ensures s == z + u && Replace(s, PLACEHOLDER, w) == z + v
    ensures if u == "" then v == "" else v != "" && u[0] == '{' && v[0] == '<'
    ensures s != "" && !PyText.StartsWith(s, PLACEHOLDER) ==> z != ""
    decreases |s|
  {
    if |s| < |PLACEHOLDER| {
      z, u, v := s, "", "";
    } else if s[..|PLACEHOLDER|] == PLACEHOLDER {
      z, u, v := "", s, Replace(s, PLACEHOLDER, w);
      assert s[..|PLACEHOLDER|][0] == '{';
    } else {
      z, u, v := ReplacedStart(s[1..], w);
      z := [s[0]] + z;
      assert s == [s[0]] + s[1..];
    }
  }

  lemma NoTagAtSeam(s: string, w: string)
    requires s != "" && !PyText.StartsWith(s, PLACEHOLDER) && !StartsTag(s) && w != "" && w[0] == '<'
    ensures !StartsTag(Replace(s, PLACEHOLDER, w))
  {
    hide StartsTag, Replace;
    var z, u, v := ReplacedStart(s, w);
    HeadAcross(z, u);
    HeadAcross(z, v);
  }

  lemma TagFreeRest(s: string, k: nat)
    requires TagFree(s) && k <= |s|
    ensures TagFree(s[k..])
  {
    hide StartsTag;
    forall p | 0 <= p < |s[k..]| ensures !StartsTag(s[k..][p..]) {
      assert s[k..][p..] == s[k + p..];
    }
  }

  lemma {:induction false} ReplacedMatches(s: string, content: string)
    requires TagFree(s)
    ensures Matches(Replace(s, PLACEHOLDER, Wrap(content))) == Pairs(Count(s, PLACEHOLDER))
    decreases |s|
  {
    hide StartsTag, Wrap, TagLength, TagFree;
    var w := Wrap(content);
    WrapIsOpened(content);
    if |s| < |PLACEHOLDER| {
      NoMatchIsTagFree(s);
    } else if s[..|PLACEHOLDER|] == PLACEHOLDER {
      TagFreeRest(s, |PLACEHOLDER|);
      ReplacedMatches(s[|PLACEHOLDER|..], content);
      WrapMatches(content, Replace(s[|PLACEHOLDER|..], PLACEHOLDER, w));
    } else {
      TagFreeRest(s, 1);
      ReplacedMatches(s[1..], content);
      assert !StartsTag(s) by { NotFirst(s); }
      NoTagAtSeam(s, w);
      assert Replace(s, PLACEHOLDER, w)[1..] == Replace(s[1..], PLACEHOLDER, w);
    }
  }

  lemma NotFirst(s: string)
    requires TagFree(s) && s != ""
    ensures !StartsTag(s)
  {
    assert s[0..] == s;
  }

  lemma WrapIsOpened(content: string)
    ensures Wrap(content) != "" && Wrap(content)[0] == '<'
  {
  }

  // Whatever the content, a prompt built from a template with k placeholders holds exactly k pairs
  // of tags, open and close in turn, and no other match: not in the content, not at a seam.
  lemma PromptMatches(template: string, content: string)
    requires BuildPrompt(template, content).Ok?
    ensures Matches(BuildPrompt(template, content).value) == Pairs(Count(template, PLACEHOLDER))
    ensures Count(template, PLACEHOLDER) > 0
  {
    NoMatchIsTagFree(template);
    ReplacedMatches(template, content);
  }

  lemma {:induction false} PairsAlternate(k: nat, i: nat)
    requires i < 2 * k
    ensures |Pairs(k)| == 2 * k && Pairs(k)[i] == if i % 2 == 0 then OPEN else CLOSE
  {
    if i >= 2 {
      PairsAlternate(k - 1, i - 2);
    } else if k > 1 {
      PairsAlternate(k - 1, 0);
    }
  }

  // ---- in characters -----------------------------------------------------

  ghost predicate Holds(s: string, target: string)
  {
    exists x, y :: s == x + target + y
  }

  // A tag as text: the name in any case, white space and one slash before it, and a closing bracket.
  ghost predicate IsTag(t: string)
  {
    exists a, slash, b, name :: IsHead(a, slash, b, name) && t == HeadText(a, slash, b, name) + ">"
  }

  lemma HeldHereOrLater(s: string, target: string)
    requires s != "" && target != ""
    ensures Holds(s, target) <==> PyText.StartsWith(s, target) || Holds(s[1..], target)
  {
    if PyText.StartsWith(s, target) {
      assert s == "" + target + s[|target|..];
    }
    if Holds(s[1..], target) {
      var x, y :| s[1..] == x + target + y;
      assert s == ([s[0]] + x) + target + y;
    }
    if Holds(s, target) {
      var x, y :| s == x + target + y;
      if x == "" {
        assert s[..|target|] == target;
      } else {
        assert s[1..] == x[1..] + target + y;
      }
    }
  }

  lemma {:induction false} CountZero(s: string, target: string)
    requires target != ""
    ensures Count(s, target) == 0 <==> !Holds(s, target)
    decreases |s|
  {
    if |s| < |target| {
      TooShort(s, target);
    } else {
      hide Holds;
      HeldHereOrLater(s, target);
      if s[..|target|] != target {
        CountZero(s[1..], target);
      }
    }
  }

  lemma TooShort(s: string, target: string)
    requires |s| < |target|
    ensures !Holds(s, target)
  {
  }

  // The build is refused exactly when the template lacks the placeholder or holds a tag itself.
  lemma RefusedTemplates(template: string, content: string)
    ensures BuildPrompt(template, content).Err? <==> !Holds(template, "{untrusted_data}") || !TagFree(template)
  {
    NoMatchIsTagFree(template);
    CountZero(template, PLACEHOLDER);
  }

  // The first placeholder of a text is replaced, and then those of the rest; a text without one stays as it is.
  lemma {:induction false} ReplaceFirst(x: string, y: string, w: string)
    requires !Holds(x, "{untrusted_data}")
    ensures Replace(x, PLACEHOLDER, w) == x
    ensures Replace(x + "{untrusted_data}" + y, PLACEHOLDER, w) == x + w + Replace(y, PLACEHOLDER, w)
  {
    hide Replace, Holds;
    var h := "{untrusted_data}";
    var s := x + h + y;
    if x == "" {
      assert s[..16] == h && s[16..] == y;
      ReplaceStep(s, w);
      ReplaceStep("", w);
      assert "" + w == w;
    } else {
      NotAtStart(x, y);
      ReplaceFirst(x[1..], y, w);
      assert s[1..] == x[1..] + h + y;
      ReplaceStep(s, w);
      ReplaceStep(x, w);
      assert [x[0]] + x[1..] == x;
      assert [x[0]] + (x[1..] + w + Replace(y, h, w)) == x + w + Replace(y, h, w);
    }
  }

  lemma ReplaceStep(s: string, w: string)
    ensures |s| < 16 ==> Replace(s, PLACEHOLDER, w) == s
    ensures |s| >= 16 && s[..16] == "{untrusted_data}" ==> Replace(s, PLACEHOLDER, w) == w + Replace(s[16..], PLACEHOLDER, w)
    ensures |s| >= 16 && s[..16] != "{untrusted_data}" ==> Replace(s, PLACEHOLDER, w) == [s[0]] + Replace(s[1..], PLACEHOLDER, w)
  {
  }

  lemma NotAtStart(x: string, y: string)
    requires x != "" && !Holds(x, "{untrusted_data}")
    ensures (x + "{untrusted_data}" + y)[..16] != "{untrusted_data}"
    ensures !Holds(x[1..], "{untrusted_data}")
    ensures |x| >= 16 ==> x[..16] != "{untrusted_data}"
  {
    hide Holds;
    HeldHereOrLater(x, "{untrusted_data}");
    var h := "{untrusted_data}";
    var s := x + h + y;
    assert |h| == 16 && h[0] == '{';
    assert forall i {:trigger h[i]} :: 1 <= i < 16 ==> h[i] != '{';
    if |x| < 16 {
      assert s[..16][|x|] == h[0];
    } else {
      assert s[..16] == x[..16];
    }
  }

  // A prompt is the template with the rewritten content between its tags, on lines of its own, in
  // the place of each placeholder.
  lemma PromptLayout(x: string, y: string, content: string)
    requires !Holds(x, "{untrusted_data}") && BuildPrompt(x + "{untrusted_data}" + y, content).Ok?
    ensures BuildPrompt(x + "{untrusted_data}" + y, content).value
         == x + ("<untrusted_data>\n" + Neutralize(content) + "\n</untrusted_data>") + Replace(y, PLACEHOLDER, Wrap(content))
    ensures !Holds(y, "{untrusted_data}") ==> Replace(y, PLACEHOLDER, Wrap(content)) == y
  {
    hide Neutralize, Replace, Holds, Wrap;
    ReplaceFirst(x, y, Wrap(content));
    if !Holds(y, "{untrusted_data}") {
      ReplaceFirst(y, "", "");
      ReplaceFirst(y, "", Wrap(content));
    }
    WrapLayout(content);
  }

  lemma WrapLayout(content: string)
    ensures Wrap(content) == "<untrusted_data>\n" + Neutralize(content) + "\n</untrusted_data>"
  {
    hide Neutralize;
    assert OPEN + "\n" == "<untrusted_data>\n" && "\n" + CLOSE == "\n</untrusted_data>";
    Then(OPEN, "\n", Neutralize(content) + ("\n" + CLOSE));
    Then("<untrusted_data>\n", Neutralize(content), "\n" + CLOSE);
  }

  // One step of the scan: up to a match the text stays, the match is escaped, the scan goes on after it.
  lemma {:induction false} ScanStep(x: string, m: string, rest: string)
    requires TagFreeBefore(x, m + rest) && StartsTag(m + rest) && |m| == TagLength(m + rest)
    ensures Neutralize(x + (m + rest)) == x + (Escape(m) + Neutralize(rest))
    ensures Matches(x + (m + rest)) == [m] + Matches(rest)
  {
    hide StartsTag, TagLength, Escape;
    var t := m + rest;
    if x == "" {
      assert x + t == t && t[..|m|] == m && t[|m|..] == rest;
      assert x + (Escape(m) + Neutralize(rest)) == Escape(m) + Neutralize(rest);
    } else {
      assert (x + t)[0..] == x + t && (x + t)[1..] == x[1..] + t;
      forall p | 0 <= p < |x[1..]| ensures !StartsTag((x[1..] + t)[p..]) {
        assert (x[1..] + t)[p..] == (x + t)[p + 1..];
      }
      ScanStep(x[1..], m, rest);
      assert [x[0]] + (x[1..] + (Escape(m) + Neutralize(rest))) == x + (Escape(m) + Neutralize(rest));
    }
  }

  // Escaping goes character by character and rewrites the two angle brackets.
  lemma {:induction false} EscapeIs(s: string, t: string)
    ensures Escape(s + t) == Escape(s) + Escape(t)
  {
    if s == "" {
      assert s + t == t && Escape(s) + Escape(t) == Escape(t);
    } else {
      hide Escape;
      EscapeIs(s[1..], t);
      EscapeFirst(s);
      EscapeFirst(s + t);
      assert (s + t)[1..] == s[1..] + t;
      Then(Escape([s[0]]), Escape(s[1..]), Escape(t));
    }
  }

  lemma EscapeFirst(s: string)
    requires s != ""
    ensures Escape(s) == Escape([s[0]]) + Escape(s[1..])
  {
    EscapeOne(s[0]);
  }

  lemma EscapeOne(c: char)
    ensures Escape([c]) == if c == '<' then "&lt;" else if c == '>' then "&gt;" else [c]
  {
    assert [c][1..] == "" && Escape("") == "";
  }

  // At how many places of a text a tag starts.
  function CountTags(s: string): nat
  {
    if s == "" then 0 else (if StartsTag(s) then 1 else 0) + CountTags(s[1..])
  }

  lemma {:induction false} InertCount(x: string, rest: string)
    requires '<' !in x
    ensures CountTags(x + rest) == CountTags(rest)
  {
    hide StartsTag;
    if x == "" {
      assert x + rest == rest;
    } else {
      assert (x + rest)[1..] == x[1..] + rest;
      InertCount(x[1..], rest);
      NoTagHere(x + rest);
    }
  }

  lemma NoTagHere(s: string)
    requires s != "" && s[0] != '<'
    ensures !StartsTag(s)
  {
  }

  // When no match has a second opening bracket, every place where a tag starts is the start of a match.
  lemma {:induction false} StartsAreMatches(s: string)
    requires forall m :: m in Matches(s) ==> m != "" && '<' !in m[1..]
    ensures CountTags(s) == |Matches(s)|
    ensures forall p :: 0 <= p < |s| && StartsTag(s[p..]) ==> s[p..][..TagLength(s[p..])] in Matches(s)
    decreases |s|
  {
    hide StartsTag, TagLength;
    if s != "" {
      assert s[0..] == s;
      var k := if StartsTag(s) then TagLength(s) else 1;
      var rest := s[k..];
      assert forall m :: m in Matches(rest) ==> m in Matches(s);
      StartsAreMatches(rest);
      if StartsTag(s) {
        assert s[..k] in Matches(s);
        assert s[1..] == s[..k][1..] + rest;
        InertCount(s[..k][1..], rest);
      }
      forall p | 0 <= p < |s| && StartsTag(s[p..]) ensures s[p..][..TagLength(s[p..])] in Matches(s) {
        if p >= k {
          assert s[p..] == rest[p - k..];
        } else if p > 0 {
          assert s[p] == s[..k][1..][p - 1];
          NoTagHere(s[p..]);
        }
      }
    }
  }

  // In a prompt a tag starts at two places for each placeholder, and each is one of the two tags put in.
  lemma PromptTags(template: string, content: string)
    requires BuildPrompt(template, content).Ok?
    ensures CountTags(BuildPrompt(template, content).value) == 2 * Count(template, PLACEHOLDER)
    ensures var prompt := BuildPrompt(template, content).value;
            forall p :: 0 <= p < |prompt| && StartsTag(prompt[p..]) ==>
              PyText.StartsWith(prompt[p..], "<untrusted_data>") || PyText.StartsWith(prompt[p..], "</untrusted_data>")
  {
    hide StartsTag, TagLength, Matches, Pairs, BuildPrompt;
    var prompt, k := BuildPrompt(template, content).value, Count(template, PLACEHOLDER);
    PromptMatches(template, content);
    forall m | m in Matches(prompt) ensures m == OPEN || m == CLOSE {
      var i :| 0 <= i < |Matches(prompt)| && Matches(prompt)[i] == m;
      PairsAre(k);
    }
    PairsAre(k);
    assert '<' !in OPEN[1..] && '<' !in CLOSE[1..];
    StartsAreMatches(prompt);
  }

  lemma PairsAre(k: nat)
    ensures |Pairs(k)| == 2 * k && forall i :: 0 <= i < 2 * k ==> Pairs(k)[i] == if i % 2 == 0 then OPEN else CLOSE
  {
    hide Pairs;
    if k == 0 {
      NoPairs();
    }
    forall i | 0 <= i < 2 * k ensures |Pairs(k)| == 2 * k && Pairs(k)[i] == if i % 2 == 0 then OPEN else CLOSE {
      PairsAlternate(k, i);
    }
    if k > 0 {
      PairsAlternate(k, 0);
    }
  }

  lemma NoPairs()
    ensures Pairs(0) == []
  {
  }

  // A tag ends at its first closing bracket, and the matcher takes it.
  lemma TagIsMatched(t: string, rest: string)
    requires IsTag(t)
    ensures StartsTag(t + rest)
    ensures t != "" && t[|t| - 1] == '>' && '>' !in t[..|t| - 1]
  {
    hide PyText.Blank, Fold, StartsTag;
    var a, slash, b, name :| IsHead(a, slash, b, name) && t == HeadText(a, slash, b, name) + ">";
    var h := |t| - 1;
    assert (t + rest)[..h] == HeadText(a, slash, b, name) && (t + rest)[h..] == ">" + rest;
    assert HeadMatches(t + rest, h);
    HeadFound(t + rest, h);
    NoBracket(a, slash, b, name);
  }

  lemma NoBracket(a: string, slash: string, b: string, name: string)
    requires IsHead(a, slash, b, name)
    ensures '>' !in HeadText(a, slash, b, name)
  {
    assert !PyText.IsSpace('>');
    assert '>' !in name by {
      assert '>' !in "untrusted_data";
      assert forall i :: 0 <= i < |name| ==> Fold(name)[i] == FoldChar(name[i]);
    }
  }

  // No prompt holds a tag, in any spelling, but the two it was given.
  lemma NoForgedTag(template: string, content: string, x: string, t: string, y: string)
    requires BuildPrompt(template, content).Ok? && BuildPrompt(template, content).value == x + t + y && IsTag(t)
    ensures t == "<untrusted_data>" || t == "</untrusted_data>"
  {
    hide BuildPrompt, IsTag, StartsTag, Count;
    var prompt := BuildPrompt(template, content).value;
    TagIsMatched(t, y);
    assert prompt[|x|..] == t + y;
    PromptTags(template, content);
    if PyText.StartsWith(t + y, "<untrusted_data>") {
      SameEnd(t, y, "<untrusted_data>");
    } else {
      SameEnd(t, y, "</untrusted_data>");
    }
  }

  lemma SameEnd(t: string, y: string, u: string)
    requires t != "" && t[|t| - 1] == '>' && '>' !in t[..|t| - 1]
    requires u != "" && u[|u| - 1] == '>' && '>' !in u[..|u| - 1]
    requires PyText.StartsWith(t + y, u)
    ensures t == u
  {
    var s := t + y;
    assert s[..|t|] == t && s[..|u|] == u;
    FirstBracket(s, t);
    FirstBracket(s, u);
  }

  lemma FirstBracket(s: string, t: string)
    requires t != "" && t[|t| - 1] == '>' && '>' !in t[..|t| - 1] && |t| <= |s| && s[..|t|] == t
    ensures s[|t| - 1] == '>' && forall i :: 0 <= i < |t| - 1 ==> s[i] != '>'
  {
    forall i | 0 <= i < |t| - 1 ensures s[i] != '>' {
      assert s[i] == s[..|t|][i] == t[..|t| - 1][i];
    }
  }

  // ---- nothing is lost ---------------------------------------------------

  // Entities of the two angle brackets, decoded left to right in one pass.
  function Decode(s: string): string
    decreases |s|
  {
    if s == "" then ""
    else if PyText.StartsWith(s, "&lt;") then "<" + Decode(s[4..])
    else if PyText.StartsWith(s, "&gt;") then ">" + Decode(s[4..])
    else [s[0]] + Decode(s[1..])
  }

  // n is c with some of its angle brackets replaced by their entities.
  predicate PartlyEscaped(c: string, n: string)
    decreases |c|
  {
    if c == "" then n == ""
    else
      || (n != "" && n[0] == c[0] && PartlyEscaped(c[1..], n[1..]))
      || (c[0] == '<' && PyText.StartsWith(n, "&lt;") && PartlyEscaped(c[1..], n[4..]))
      || (c[0] == '>' && PyText.StartsWith(n, "&gt;") && PartlyEscaped(c[1..], n[4..]))
  }

  lemma {:induction false} EscapedFirst(x: string, c: string, n: string)
    requires PartlyEscaped(c, n)
    ensures PartlyEscaped(x + c, Escape(x) + n)
  {
    if x == "" {
      assert x + c == c && Escape(x) + n == n;
    } else {
      EscapedFirst(x[1..], c, n);
      assert (x + c)[1..] == x[1..] + c;
      var rest := Escape(x[1..]) + n;
      if x[0] == '<' {
        Then("&lt;", Escape(x[1..]), n);
        assert ("&lt;" + rest)[4..] == rest && ("&lt;" + rest)[..4] == "&lt;";
      } else if x[0] == '>' {
        Then("&gt;", Escape(x[1..]), n);
        assert ("&gt;" + rest)[4..] == rest && ("&gt;" + rest)[..4] == "&gt;";
      } else {
        Then([x[0]], Escape(x[1..]), n);
        assert ([x[0]] + rest)[1..] == rest;
      }
    }
  }

  lemma {:induction false} NeutralizedIsPartlyEscaped(s: string)
    ensures PartlyEscaped(s, Neutralize(s))
    decreases |s|
  {
    hide StartsTag, TagLength, PartlyEscaped, Escape;
    if s == "" {
      assert PartlyEscaped("", "") by { Nothing(); }
    } else if StartsTag(s) {
      NeutralizedIsPartlyEscaped(s[TagLength(s)..]);
      EscapedFirst(s[..TagLength(s)], s[TagLength(s)..], Neutralize(s[TagLength(s)..]));
      assert s == s[..TagLength(s)] + s[TagLength(s)..];
    } else {
      NeutralizedIsPartlyEscaped(s[1..]);
      SameFirst(s, Neutralize(s));
    }
  }

  lemma Nothing()
    ensures PartlyEscaped("", "")
  {
  }

  lemma SameFirst(c: string, n: string)
    requires c != "" && n != "" && n[0] == c[0] && PartlyEscaped(c[1..], n[1..])
    ensures PartlyEscaped(c, n)
  {
  }

  // An entity the content held before is still one, and no new one forms next to a replaced bracket.
  lemma SameEntity(c: string, n: string, entity: string)
    requires c != "" && n != "" && n[0] == c[0] == '&' && PartlyEscaped(c[1..], n[1..])
    requires |entity| == 4 && entity[0] == '&' && forall i :: 1 <= i < 4 ==> entity[i] != '<' && entity[i] != '>' && entity[i] != '&'
    ensures PyText.StartsWith(c, entity) <==> PyText.StartsWith(n, entity)
    ensures PyText.StartsWith(c, entity) ==> PartlyEscaped(c[4..], n[4..])
  {
    var e1 := entity[1..];
    Agree(c[1..], n[1..], e1);
    assert |c| >= 4 ==> c[..4] == [c[0]] + c[1..][..3];
    assert |n| >= 4 ==> n[..4] == [n[0]] + n[1..][..3];
    assert entity == [entity[0]] + e1;
    if |c| >= 4 && |n| >= 4 {
      assert c[1..][3..] == c[4..] && n[1..][3..] == n[4..];
      assert PyText.StartsWith(c, entity) ==> c[..4][1..] == e1;
      assert PyText.StartsWith(n, entity) ==> n[..4][1..] == e1;
    }
  }

  lemma {:induction false} Agree(c: string, n: string, e: string)
    requires PartlyEscaped(c, n)
    requires forall i :: 0 <= i < |e| ==> e[i] != '<' && e[i] != '>' && e[i] != '&'
    ensures PyText.StartsWith(c, e) <==> PyText.StartsWith(n, e)
    ensures PyText.StartsWith(c, e) ==> PartlyEscaped(c[|e|..], n[|e|..])
  {
    if e == "" {
      assert c[0..] == c && n[0..] == n;
    } else if c != "" && n != "" {
      assert e == [e[0]] + e[1..];
      assert |c| >= |e| ==> c[..|e|] == [c[0]] + c[1..][..|e| - 1];
      assert |n| >= |e| ==> n[..|e|] == [n[0]] + n[1..][..|e| - 1];
      if n[0] == c[0] && PartlyEscaped(c[1..], n[1..]) {
        Agree(c[1..], n[1..], e[1..]);
        if |c| >= |e| && |n| >= |e| {
          assert c[1..][|e| - 1..] == c[|e|..] && n[1..][|e| - 1..] == n[|e|..];
        }
      }
    }
  }

  lemma {:induction false} DecodeAgrees(c: string, n: string)
    requires PartlyEscaped(c, n)
    ensures Decode(c) == Decode(n)
    decreases |c|
  {
    if c == "" {
    } else if n[0] == c[0] && PartlyEscaped(c[1..], n[1..]) {
      if c[0] == '&' {
        SameEntity(c, n, "&lt;");
        SameEntity(c, n, "&gt;");
        if PyText.StartsWith(c, "&lt;") || PyText.StartsWith(c, "&gt;") {
          DecodeAgrees(c[4..], n[4..]);
        } else {
          DecodeAgrees(c[1..], n[1..]);
        }
      } else {
        assert !PyText.StartsWith(c, "&lt;") && !PyText.StartsWith(c, "&gt;");
        assert !PyText.StartsWith(n, "&lt;") && !PyText.StartsWith(n, "&gt;");
        DecodeAgrees(c[1..], n[1..]);
      }
    } else {
      DecodeAgrees(c[1..], n[4..]);
    }
  }

  // Decoding the two entities undoes the rewriting, whatever entities the content held itself.
  lemma NothingIsLost(content: string)
    ensures Decode(Neutralize(content)) == Decode(content)
  {
    NeutralizedIsPartlyEscaped(content);
    DecodeAgrees(content, Neutralize(content));
  }

  // Only content with a tag in it is touched.
  lemma {:induction false} UntouchedIffTagFree(s: string)
    ensures Neutralize(s) == s <==> TagFree(s)
    decreases |s|
  {
    NeutralizedIsTagFree(s);
    if TagFree(s) && s != "" {
      hide StartsTag, TagLength;
      NotFirst(s);
      TagFreeRest(s, 1);
      UntouchedIffTagFree(s[1..]);
    }
  }
}
