/**
 Canonical JSON: what `json.dumps(…, separators=(",", ":"))` writes and `json.loads` reads.
 Objects are given as their members in written order; `sort_keys` is the caller's business.
 */
module Json {
  import opened Wrappers
  import opened Decimal

  datatype Json =
    | Null
    | Bool(b: bool)
    | Int(n: int)
    | Str(s: string)
    | Arr(items: seq<Json>)
    | Obj(members: seq<Member>)

  datatype Member = Member(key: string, value: Json)

  // ---- strings: section 7 of RFC 8259, with everything but printable ASCII escaped ----

  function HexDigit(d: nat): (c: char)
    requires d < 16
  {
    if d < 10 then ('0' as int + d) as char else ('a' as int + d - 10) as char
  }

  function HexValue(c: char): (r: Option<nat>)
    ensures r.Some? ==> r.value < 16
  {
    if '0' <= c <= '9' then Some(c as int - '0' as int)
    else if 'a' <= c <= 'f' then Some(c as int - 'a' as int + 10)
    else if 'A' <= c <= 'F' then Some(c as int - 'A' as int + 10)
    else None
  }

  function Hex4(n: nat): (s: string)
    requires n < 0x10000
    ensures |s| == 4
  {
    var n1 := n / 16;
    var n2 := n1 / 16;
    [HexDigit(n2 / 16), HexDigit(n2 % 16), HexDigit(n1 % 16), HexDigit(n % 16)]
  }

  function ReadHex4(s: string): (r: Option<nat>)
    ensures r.Some? ==> |s| >= 4 && r.value < 0x10000
  {
    if |s| < 4 then None
    else
      var a, b, c, d := HexValue(s[0]), HexValue(s[1]), HexValue(s[2]), HexValue(s[3]);
      if a.None? || b.None? || c.None? || d.None? then None
      else Some(0x1000 * a.value + 0x100 * b.value + 0x10 * c.value + d.value)
  }

  // Both cases are read, the small one is written.
  lemma HexIs(c: char, d: nat)
    requires d < 16
    ensures HexValue(c) == Some(d) <==> c == "0123456789abcdef"[d] || c == "0123456789ABCDEF"[d]
    ensures HexDigit(d) == "0123456789abcdef"[d]
  {
  }

  lemma HexValueOf(d: nat)
    requires d < 16
    ensures HexValue(HexDigit(d)) == Some(d)
  {
  }

  lemma ReadHex4Of(n: nat, rest: string)
    requires n < 0x10000
    ensures ReadHex4(Hex4(n) + rest) == Some(n)
  {
    var s := Hex4(n) + rest;
    var n1 := n / 16;
    var n2 := n1 / 16;
    HexValueOf(n2 / 16);
    HexValueOf(n2 % 16);
    HexValueOf(n1 % 16);
    HexValueOf(n % 16);
    assert s[0] == Hex4(n)[0] && s[1] == Hex4(n)[1] && s[2] == Hex4(n)[2] && s[3] == Hex4(n)[3];
  }

  function Escape(c: char): (e: string)
    ensures e != ""
  {
    if c == '"' then "\\\""
    else if c == '\\' then "\\\\"
    else if c == '\n' then "\\n"
    else if c == '\r' then "\\r"
    else if c == '\t' then "\\t"
    else if c as int == 0x08 then "\\b"
    else if c as int == 0x0c then "\\f"
    else if ' ' <= c <= '~' then [c]
    else if c as int < 0x10000 then "\\u" + Hex4(c as int)
    else
      var m := c as int - 0x10000;
      "\\u" + Hex4(0xd800 + m / 0x400) + "\\u" + Hex4(0xdc00 + m % 0x400)
  }

  function EscapeAll(s: string): string
  {
    if s == "" then "" else Escape(s[0]) + EscapeAll(s[1..])
  }

  function Quote(s: string): string
  {
    "\"" + EscapeAll(s) + "\""
  }

  // One possibly escaped character: the character and the rest of the text.
  function ReadChar(s: string): (r: Option<(char, string)>)
    requires s != "" && s[0] != '"'
    ensures r.Some? ==> |r.value.1| < |s|
  {
    if s[0] != '\\' then if s[0] < ' ' then None else Some((s[0], s[1..]))
    else if |s| < 2 then None
    else
      if s[1] == 'u' then ReadUnicode(s[2..])
      else
        var c := ShortEscape(s[1]);
        if c.None? then None else Some((c.value, s[2..]))
  }

  // The character that a backslash and `k` stand for.
  function ShortEscape(k: char): Option<char>
  {
    if k == '"' || k == '\\' || k == '/' then Some(k)
    else if k == 'n' then Some('\n')
    else if k == 'r' then Some('\r')
    else if k == 't' then Some('\t')
    else if k == 'b' then Some(0x08 as char)
    else if k == 'f' then Some(0x0c as char)
    else None
  }

  // What follows `\u`. A high surrogate must be followed by an escaped low one.
  function ReadUnicode(s: string): (r: Option<(char, string)>)
    ensures r.Some? ==> |r.value.1| < |s|
  {
    var first := ReadHex4(s);
    if first.None? then None
    else if first.value < 0xd800 || 0xe000 <= first.value then Some((first.value as char, s[4..]))
    else if 0xdc00 <= first.value || |s| < 10 || s[4] != '\\' || s[5] != 'u' then None
    else
      var second := ReadHex4(s[6..]);
      if second.None? || second.value < 0xdc00 || 0xe000 <= second.value then None
      else Some(((0x10000 + (first.value - 0xd800) * 0x400 + (second.value - 0xdc00)) as char, s[10..]))
  }

  lemma ReadUnicodeBasic(n: nat, rest: string)
    requires n < 0xd800 || 0xe000 <= n < 0x10000
    ensures ReadUnicode(Hex4(n) + rest) == Some((n as char, rest))
  {
    ReadHex4Of(n, rest);
    assert (Hex4(n) + rest)[4..] == rest;
  }

  lemma ReadUnicodePair(hi: nat, lo: nat, rest: string)
    requires 0xd800 <= hi < 0xdc00 <= lo < 0xe000
    ensures ReadUnicode(Hex4(hi) + "\\u" + Hex4(lo) + rest)
         == Some(((0x10000 + (hi - 0xd800) * 0x400 + (lo - 0xdc00)) as char, rest))
  {
    hide HexValue, HexDigit;
    var low := Hex4(lo) + rest;
    var tail := "\\u" + low;
    var s := Hex4(hi) + tail;
    Enclose(Hex4(hi), "\\u", Hex4(lo), rest);
    Enclose("", "\\u", Hex4(lo), rest);
    ReadHex4Of(hi, tail);
    ReadHex4Of(lo, rest);
    assert s[4] == tail[0] && s[5] == tail[1];
    assert s[6..] == low && s[10..] == rest;
  }

  lemma EscapeShape(c: char)
    ensures |Escape(c)| == 1 ==> Escape(c)[0] == c >= ' ' && c != '"' && c != '\\'
    ensures |Escape(c)| == 2 ==> Escape(c)[0] == '\\' && ShortEscape(Escape(c)[1]) == Some(c)
    ensures |Escape(c)| > 2 ==> Escape(c)[..2] == "\\u"
    ensures |Escape(c)| > 2 ==> c as int < 0xd800 || 0xe000 <= c as int
    ensures |Escape(c)| > 2 && c as int < 0x10000 ==> Escape(c)[2..] == Hex4(c as int)
    ensures |Escape(c)| > 2 && c as int >= 0x10000 ==>
              var m := c as int - 0x10000;
              Escape(c)[2..] == Hex4(0xd800 + m / 0x400) + "\\u" + Hex4(0xdc00 + m % 0x400)
  {
  }

  lemma ReadEscaped(c: char, rest: string)
    ensures Escape(c)[0] != '"'
    ensures ReadChar(Escape(c) + rest) == Some((c, rest))
  {
    var e := Escape(c);
    var s := e + rest;
    EscapeShape(c);
    assert s[0] == e[0];
    if |e| == 1 {
      assert s[1..] == rest;
    } else if |e| == 2 {
      assert s[1] == e[1] && s[2..] == rest;
    } else {
      ReadEscapedUnicode(c, rest);
    }
  }

  lemma ReadEscapedUnicode(c: char, rest: string)
    requires |Escape(c)| > 2
    ensures ReadChar(Escape(c) + rest) == Some((c, rest))
  {
    hide Escape, Hex4, ReadUnicode;
    var e := Escape(c);
    var s := e + rest;
    EscapeShape(c);
    assert e[0] == e[..2][0] && e[1] == e[..2][1];
    assert s[0] == e[0] && s[1] == e[1] && s[2..] == e[2..] + rest;
    if c as int < 0x10000 {
      ReadUnicodeBasic(c as int, rest);
    } else {
      var m := c as int - 0x10000;
      ReadUnicodePair(0xd800 + m / 0x400, 0xdc00 + m % 0x400, rest);
    }
  }

  // Concatenation regrouped, stated once so that proofs need not search for it.
  lemma Enclose(open: string, body: string, close: string, rest: string)
    ensures open + body + close + rest == open + (body + close + rest)
  {
  }

  // The body of a string, up to and past the closing quote.
  function ReadBody(s: string): (r: Option<(string, string)>)
    ensures r.Some? ==> |r.value.1| < |s|
    decreases |s|
  {
    if s == "" then None
    else if s[0] == '"' then Some(("", s[1..]))
    else
      var head := ReadChar(s);
      if head.None? then None
      else
        var tail := ReadBody(head.value.1);
        if tail.None? then None else Some(([head.value.0] + tail.value.0, tail.value.1))
  }

  lemma {:induction false} ReadBodyOf(s: string, rest: string)
    ensures ReadBody(EscapeAll(s) + "\"" + rest) == Some((s, rest))
  {
    var t := EscapeAll(s) + "\"" + rest;
    if s == "" {
      assert t == "\"" + rest;
    } else {
      var tail := EscapeAll(s[1..]) + "\"" + rest;
      Enclose(Escape(s[0]), EscapeAll(s[1..]), "\"", rest);
      ReadEscaped(s[0], tail);
      ReadBodyOf(s[1..], rest);
      assert s == [s[0]] + s[1..];
    }
  }

  // ---- documents ---------------------------------------------------------

  function Encode(v: Json): string
    decreases v, 1
  {
    match v
    case Null => "null"
    case Bool(b) => if b then "true" else "false"
    case Int(n) => Text(n)
    case Str(s) => Quote(s)
    case Arr(items) => "[" + EncodeItems(items) + "]"
    case Obj(members) => "{" + EncodeMembers(members) + "}"
  }

  function EncodeItems(items: seq<Json>): string
    decreases items, 0
  {
    if items == [] then ""
    else if |items| == 1 then Encode(items[0])
    else Encode(items[0]) + "," + EncodeItems(items[1..])
  }

  function EncodeMembers(members: seq<Member>): string
    decreases members, 0
  {
    if members == [] then ""
    else
      var m := members[0];
      var text := Quote(m.key) + ":" + Encode(m.value);
      if |members| == 1 then text else text + "," + EncodeMembers(members[1..])
  }

  predicate IsSpace(c: char)
  {
    c == ' ' || c == '\t' || c == '\n' || c == '\r'
  }

  // Section 2 of RFC 8259: space, tab, line feed and carriage return.
  lemma SpacesAre(c: char)
    ensures IsSpace(c) <==> c as int == 0x20 || c as int == 0x09 || c as int == 0x0a || c as int == 0x0d
  {
  }

  function SkipSpace(s: string): (r: string)
    ensures |r| <= |s|
    ensures s != "" && !IsSpace(s[0]) ==> r == s
  {
    if s != "" && IsSpace(s[0]) then SkipSpace(s[1..]) else s
  }

  // A value at the very start of the text, and what follows it.
  function ReadValue(s: string): (r: Option<(Json, string)>)
    ensures r.Some? ==> |r.value.1| < |s|
    decreases |s|, 2
  {
    if s == "" then None
    else if s[0] == '"' then
      var body := ReadBody(s[1..]);
      if body.None? then None else Some((Str(body.value.0), body.value.1))
    else if s[0] == '[' then
      var items := ReadArray(SkipSpace(s[1..]));
      if items.None? then None else Some((Arr(items.value.0), items.value.1))
    else if s[0] == '{' then
      var members := ReadObject(SkipSpace(s[1..]));
      if members.None? then None else Some((Obj(members.value.0), members.value.1))
    else if s[0] == 'n' then ReadWord(s, "null", Null)
    else if s[0] == 't' then ReadWord(s, "true", Bool(true))
    else if s[0] == 'f' then ReadWord(s, "false", Bool(false))
    else
      var n := ReadInt(s);
      if n.None? then None else Some((Int(n.value.0), n.value.1))
  }

  function ReadWord(s: string, word: string, v: Json): (r: Option<(Json, string)>)
    requires word != ""
    ensures r.Some? ==> |r.value.1| < |s|
  {
    if |s| >= |word| && s[..|word|] == word then Some((v, s[|word|..])) else None
  }

  // What follows an opening bracket.
  function ReadArray(s: string): (r: Option<(seq<Json>, string)>)
    ensures r.Some? ==> |r.value.1| < |s|
    decreases |s|, 4
  {
    if s != "" && s[0] == ']' then Some(([], s[1..])) else ReadItems(s)
  }

  // Array elements up to and past the closing bracket; at least one element.
  function ReadItems(s: string): (r: Option<(seq<Json>, string)>)
    ensures r.Some? ==> |r.value.1| < |s|
    decreases |s|, 3
  {
    var head := ReadValue(s);
    if head.None? then None
    else
      var t := SkipSpace(head.value.1);
      if t == "" then None
      else if t[0] == ']' then Some(([head.value.0], t[1..]))
      else if t[0] != ',' then None
      else
        var tail := ReadItems(SkipSpace(t[1..]));
        if tail.None? then None else Some(([head.value.0] + tail.value.0, tail.value.1))
  }

  // What follows an opening brace.
  function ReadObject(s: string): (r: Option<(seq<Member>, string)>)
    ensures r.Some? ==> |r.value.1| < |s|
    decreases |s|, 5
  {
    if s != "" && s[0] == '}' then Some(([], s[1..])) else ReadMembers(s)
  }

  // Object members up to and past the closing brace; at least one member.
  function ReadMembers(s: string): (r: Option<(seq<Member>, string)>)
    ensures r.Some? ==> |r.value.1| < |s|
    decreases |s|, 4
  {
    var head := ReadMember(s);
    if head.None? then None
    else
      var t := SkipSpace(head.value.1);
      if t == "" then None
      else if t[0] == '}' then Some(([head.value.0], t[1..]))
      else if t[0] != ',' then None
      else
        var tail := ReadMembers(SkipSpace(t[1..]));
        if tail.None? then None else Some(([head.value.0] + tail.value.0, tail.value.1))
  }

  function ReadMember(s: string): (r: Option<(Member, string)>)
    ensures r.Some? ==> |r.value.1| < |s|
    decreases |s|, 3
  {
    if s == "" || s[0] != '"' then None
    else
      var key := ReadBody(s[1..]);
      if key.None? then None
      else
        var colon := SkipSpace(key.value.1);
        if colon == "" || colon[0] != ':' then None
        else
          var value := ReadValue(SkipSpace(colon[1..]));
          if value.None? then None else Some((Member(key.value.0, value.value.0), value.value.1))
  }

  // json.loads: one value with nothing but white space around it.
  function Decode(s: string): Option<Json>
  {
    var r := ReadValue(SkipSpace(s));
    if r.None? || SkipSpace(r.value.1) != "" then None else Some(r.value.0)
  }

  // ---- reading back what was written -------------------------------------

  lemma TextHead(n: int)
    ensures Text(n) != "" && (Text(n)[0] == '-' || IsDigit(Text(n)[0]))
  {
    var d := Digits(if n < 0 then -n else n);
    assert d[0] in d;
  }

  // A written value starts neither with white space nor with a closing bracket.
  lemma EncodeHead(v: Json)
    ensures Encode(v) != "" && !IsSpace(Encode(v)[0]) && Encode(v)[0] != ']'
  {
    if v.Int? {
      TextHead(v.n);
    }
  }

  lemma ReadWordOf(word: string, v: Json, rest: string)
    requires word != ""
    ensures ReadWord(word + rest, word, v) == Some((v, rest))
  {
    assert (word + rest)[..|word|] == word && (word + rest)[|word|..] == rest;
  }

  lemma ReadNumberOf(n: int, rest: string)
    requires !StartsWithDigit(rest)
    ensures ReadValue(Text(n) + rest) == Some((Int(n), rest))
  {
    TextHead(n);
    ReadIntText(n, rest);
    assert (Text(n) + rest)[0] == Text(n)[0];
  }

  lemma ReadStringOf(t: string, rest: string)
    ensures ReadValue(Quote(t) + rest) == Some((Str(t), rest))
  {
    assert (Quote(t) + rest)[1..] == EscapeAll(t) + "\"" + rest;
    ReadBodyOf(t, rest);
  }

  lemma ReadArrayOf(t: string, items: seq<Json>, rest: string)
    requires SkipSpace(t) == t && ReadArray(t) == Some((items, rest))
    ensures ReadValue("[" + t) == Some((Arr(items), rest))
  {
    assert ("[" + t)[1..] == t;
  }

  lemma ReadObjectOf(t: string, members: seq<Member>, rest: string)
    requires SkipSpace(t) == t && ReadObject(t) == Some((members, rest))
    ensures ReadValue("{" + t) == Some((Obj(members), rest))
  {
    assert ("{" + t)[1..] == t;
  }

  lemma {:induction false} ReadValueOf(v: Json, rest: string)
    requires !StartsWithDigit(rest)
    ensures ReadValue(Encode(v) + rest) == Some((v, rest))
    decreases v, 2
  {
    match v
    case Null => ReadWordOf("null", v, rest);
    case Bool(b) => ReadWordOf(if b then "true" else "false", v, rest);
    case Int(n) => ReadNumberOf(n, rest);
    case Str(t) => ReadStringOf(t, rest);
    case Arr(items) =>
      ReadWholeArray(items, rest);
      Enclose("[", EncodeItems(items), "]", rest);
      ReadArrayOf(EncodeItems(items) + "]" + rest, items, rest);
    case Obj(members) =>
      ReadWholeObject(members, rest);
      Enclose("{", EncodeMembers(members), "}", rest);
      ReadObjectOf(EncodeMembers(members) + "}" + rest, members, rest);
  }

  lemma {:induction false} ReadWholeArray(items: seq<Json>, rest: string)
    ensures var t := EncodeItems(items) + "]" + rest;
            SkipSpace(t) == t && ReadArray(t) == Some((items, rest))
    decreases items, 1
  {
    var t := EncodeItems(items) + "]" + rest;
    if items == [] {
      assert t == "]" + rest && t[1..] == rest;
    } else {
      EncodeHead(items[0]);
      assert t[0] == Encode(items[0])[0];
      ReadItemsOf(items, rest);
    }
  }

  lemma {:induction false} ReadWholeObject(members: seq<Member>, rest: string)
    ensures var t := EncodeMembers(members) + "}" + rest;
            SkipSpace(t) == t && ReadObject(t) == Some((members, rest))
    decreases members, 1
  {
    var t := EncodeMembers(members) + "}" + rest;
    if members == [] {
      assert t == "}" + rest && t[1..] == rest;
    } else {
      ObjectTextHead(members, rest);
      ReadMembersOf(members, rest);
    }
  }

  lemma ReadItemsLast(s: string, v: Json, rest: string)
    requires ReadValue(s) == Some((v, "]" + rest))
    ensures ReadItems(s) == Some(([v], rest))
  {
    assert ("]" + rest)[1..] == rest;
  }

  lemma ReadItemsMore(s: string, v: Json, tail: string, vs: seq<Json>, rest: string)
    requires ReadValue(s) == Some((v, "," + tail))
    requires SkipSpace(tail) == tail && ReadItems(tail) == Some((vs, rest))
    ensures ReadItems(s) == Some(([v] + vs, rest))
  {
    assert ("," + tail)[1..] == tail;
  }

  lemma {:induction false} ReadItemsOf(items: seq<Json>, rest: string)
    requires items != []
    ensures ReadItems(EncodeItems(items) + "]" + rest) == Some((items, rest))
    decreases items, 0
  {
    var s := EncodeItems(items) + "]" + rest;
    if |items| == 1 {
      assert s == Encode(items[0]) + ("]" + rest);
      ReadValueOf(items[0], "]" + rest);
      ReadItemsLast(s, items[0], rest);
      assert items == [items[0]];
    } else {
      var tail := EncodeItems(items[1..]) + "]" + rest;
      assert s == Encode(items[0]) + ("," + tail);
      ReadValueOf(items[0], "," + tail);
      ReadItemsOf(items[1..], rest);
      EncodeHead(items[1]);
      assert tail[0] == Encode(items[1])[0];
      ReadItemsMore(s, items[0], tail, items[1..], rest);
      assert items == [items[0]] + items[1..];
    }
  }

  lemma ReadMembersLast(s: string, m: Member, rest: string)
    requires ReadMember(s) == Some((m, "}" + rest))
    ensures ReadMembers(s) == Some(([m], rest))
  {
    assert ("}" + rest)[1..] == rest;
  }

  lemma ReadMembersMore(s: string, m: Member, tail: string, ms: seq<Member>, rest: string)
    requires ReadMember(s) == Some((m, "," + tail))
    requires SkipSpace(tail) == tail && ReadMembers(tail) == Some((ms, rest))
    ensures ReadMembers(s) == Some(([m] + ms, rest))
  {
    assert ("," + tail)[1..] == tail;
  }

  // What follows the first member in the text of an object.
  function AfterFirst(members: seq<Member>, rest: string): string
    requires members != []
  {
    if |members| == 1 then "}" + rest else "," + (EncodeMembers(members[1..]) + "}" + rest)
  }

  lemma Regroup(k: string, v: string, after: string)
    ensures "\"" + k + "\"" + ":" + v + after == "\"" + (k + "\"" + (":" + (v + after)))
  {
  }

  lemma Join(a: string, b: string, rest: string)
    ensures a + "," + b + "}" + rest == a + ("," + (b + "}" + rest))
    ensures a + "}" + rest == a + ("}" + rest)
  {
  }

  lemma FirstMemberText(members: seq<Member>, rest: string)
    requires members != []
    ensures EncodeMembers(members) + "}" + rest
         == "\"" + (EscapeAll(members[0].key) + "\"" + (":" + (Encode(members[0].value) + AfterFirst(members, rest))))
  {
    var k, v := EscapeAll(members[0].key), Encode(members[0].value);
    var text := "\"" + k + "\"" + ":" + v;
    Regroup(k, v, AfterFirst(members, rest));
    if |members| == 1 {
      assert EncodeMembers(members) == text;
      Join(text, "", rest);
    } else {
      var more := EncodeMembers(members[1..]);
      assert EncodeMembers(members) == text + "," + more;
      Join(text, more, rest);
    }
  }

  lemma ObjectTextHead(members: seq<Member>, rest: string)
    requires members != []
    ensures var t := EncodeMembers(members) + "}" + rest; t != "" && t[0] == '"' && SkipSpace(t) == t
  {
    FirstMemberText(members, rest);
  }

  lemma ReadMemberOf(m: Member, after: string)
    requires ReadValue(Encode(m.value) + after) == Some((m.value, after))
    ensures ReadMember("\"" + (EscapeAll(m.key) + "\"" + (":" + (Encode(m.value) + after)))) == Some((m, after))
  {
    var colon := Encode(m.value) + after;
    var body := EscapeAll(m.key) + "\"" + (":" + colon);
    assert ("\"" + body)[1..] == body;
    ReadBodyOf(m.key, ":" + colon);
    EncodeHead(m.value);
    assert colon[0] == Encode(m.value)[0];
    assert (":" + colon)[1..] == colon;
  }

  lemma {:induction false} ReadMembersOf(members: seq<Member>, rest: string)
    requires members != []
    ensures ReadMembers(EncodeMembers(members) + "}" + rest) == Some((members, rest))
    decreases members, 0
  {
    hide Encode, EncodeMembers, EscapeAll, ReadMember, ReadMembers, ReadValue;
    var m := members[0];
    FirstMemberText(members, rest);
    ReadValueOf(m.value, AfterFirst(members, rest));
    ReadMemberOf(m, AfterFirst(members, rest));
    var s := EncodeMembers(members) + "}" + rest;
    if |members| == 1 {
      ReadMembersLast(s, m, rest);
      assert members == [m];
    } else {
      var tail := EncodeMembers(members[1..]) + "}" + rest;
      ReadMembersOf(members[1..], rest);
      ObjectTextHead(members[1..], rest);
      ReadMembersMore(s, m, tail, members[1..], rest);
      assert members == [m] + members[1..];
    }
  }

  lemma DecodeEncode(v: Json)
    ensures Decode(Encode(v)) == Some(v)
  {
    EncodeHead(v);
    ReadValueOf(v, "");
    assert Encode(v) + "" == Encode(v);
  }

  lemma EncodeInjective(v: Json, w: Json)
    requires Encode(v) == Encode(w)
    ensures v == w
  {
    DecodeEncode(v);
    DecodeEncode(w);
  }

  // ---- what the text looks like ------------------------------------------

  predicate Printable(s: string)
  {
    forall i :: 0 <= i < |s| ==> ' ' <= s[i] <= '~'
  }

  lemma PrintableBoth(a: string, b: string)
    requires Printable(a) && Printable(b)
    ensures Printable(a + b)
  {
  }

  lemma {:induction false} EscapedIsPrintable(s: string)
    ensures Printable(EscapeAll(s)) && Printable(Quote(s))
  {
    hide Escape;
    if s != "" {
      OneIsPrintable(s[0]);
      EscapedIsPrintable(s[1..]);
      PrintableBoth(Escape(s[0]), EscapeAll(s[1..]));
    }
    PrintableBoth("\"", EscapeAll(s));
    PrintableBoth("\"" + EscapeAll(s), "\"");
  }

  lemma OneIsPrintable(c: char)
    ensures Printable(Escape(c))
  {
    if c as int >= 0x10000 {
      var m := c as int - 0x10000;
      HexIsPrintable(0xd800 + m / 0x400);
      HexIsPrintable(0xdc00 + m % 0x400);
    } else {
      HexIsPrintable(c as int);
    }
  }

  lemma HexIsPrintable(n: nat)
    requires n < 0x10000
    ensures Printable(Hex4(n))
  {
  }

  lemma NumberIsPrintable(n: int)
    ensures Printable(Text(n))
  {
    var d := Digits(if n < 0 then -n else n);
    forall i | 0 <= i < |d| ensures ' ' <= d[i] <= '~' {
      assert d[i] in d;
    }
  }

  // Whatever the value, its text is printable ASCII on one line.
  lemma {:induction false} EncodedIsPrintable(v: Json)
    ensures Printable(Encode(v))
    decreases v, 1
  {
    hide Printable;
    Marks();
    match v
    case Null =>
    case Bool(b) =>
    case Int(n) => NumberIsPrintable(n);
    case Str(s) => EscapedIsPrintable(s);
    case Arr(items) =>
      ItemsArePrintable(items);
      PrintableBoth("[", EncodeItems(items));
      PrintableBoth("[" + EncodeItems(items), "]");
    case Obj(members) =>
      MembersArePrintable(members);
      PrintableBoth("{", EncodeMembers(members));
      PrintableBoth("{" + EncodeMembers(members), "}");
  }

  lemma Marks()
    ensures Printable("null") && Printable("true") && Printable("false")
    ensures Printable("[") && Printable("]") && Printable("{") && Printable("}")
    ensures Printable(",") && Printable(":") && Printable("")
  {
  }

  lemma {:induction false} ItemsArePrintable(items: seq<Json>)
    ensures Printable(EncodeItems(items))
    decreases items, 0
  {
    hide Printable;
    Marks();
    if items != [] {
      EncodedIsPrintable(items[0]);
      ItemsArePrintable(items[1..]);
      PrintableBoth(Encode(items[0]), ",");
      PrintableBoth(Encode(items[0]) + ",", EncodeItems(items[1..]));
    }
  }

  lemma {:induction false} MembersArePrintable(members: seq<Member>)
    ensures Printable(EncodeMembers(members))
    decreases members, 0
  {
    hide Printable;
    Marks();
    if members != [] {
      var m := members[0];
      EscapedIsPrintable(m.key);
      EncodedIsPrintable(m.value);
      MembersArePrintable(members[1..]);
      PrintableBoth(Quote(m.key), ":");
      PrintableBoth(Quote(m.key) + ":", Encode(m.value));
      PrintableBoth(Quote(m.key) + ":" + Encode(m.value), ",");
      PrintableBoth(Quote(m.key) + ":" + Encode(m.value) + ",", EncodeMembers(members[1..]));
    }
  }

  // The separators stand alone, without white space.
  lemma ListShape(a: Json, b: Json)
    ensures EncodeItems([a, b]) == Encode(a) + "," + Encode(b) && EncodeItems([]) == ""
    ensures Encode(Arr([a, b])) == "[" + EncodeItems([a, b]) + "]"
  {
    assert [a, b][1..] == [b];
    assert EncodeItems([b]) == Encode(b);
  }

  lemma ObjectShape(k: string, a: Json, l: string, b: Json)
    ensures EncodeMembers([Member(k, a), Member(l, b)]) == Quote(k) + ":" + Encode(a) + "," + EncodeMembers([Member(l, b)])
    ensures EncodeMembers([Member(l, b)]) == Quote(l) + ":" + Encode(b) && EncodeMembers([]) == ""
    ensures Encode(Obj([Member(k, a)])) == "{" + EncodeMembers([Member(k, a)]) + "}"
  {
    hide Encode, Quote;
    assert [Member(k, a), Member(l, b)][1..] == [Member(l, b)];
    OneObject([Member(k, a)]);
  }

  lemma OneObject(members: seq<Member>)
    ensures Encode(Obj(members)) == "{" + EncodeMembers(members) + "}"
  {
  }
}
