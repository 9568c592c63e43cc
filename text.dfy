/** The few Python string operations the core relies on, over `string` (= seq<char>). */
module Text {
  import opened Wrappers

  /** Python truthiness of an optional string: present and non-empty. */
  predicate Truthy(o: Option<string>) {
    o.Some? && o.value != ""
  }

  /** `s.startswith(p)` */
  predicate StartsWith(s: string, p: string) {
    |p| <= |s| && s[..|p|] == p
  }

  /** `sub in s` */
  predicate Contains(s: string, sub: string) {
    exists i :: 0 <= i <= |s| && StartsWith(s[i..], sub)
  }

  predicate All(s: string, p: char -> bool) {
    forall i :: 0 <= i < |s| ==> p(s[i])
  }

  /** The characters for which Python's `str.isspace()` holds. */
  predicate IsSpace(c: char) {
    c == ' ' || c == '\t' || c == '\n' || c == '\r' || c == '\U{B}' || c == '\U{C}'
    || ('\U{1C}' <= c <= '\U{1F}') || c == '\U{85}' || c == '\U{A0}' || c == '\U{1680}'
    || ('\U{2000}' <= c <= '\U{200A}') || c == '\U{2028}' || c == '\U{2029}'
    || c == '\U{202F}' || c == '\U{205F}' || c == '\U{3000}'
  }

  /** Drops the longest prefix of `s` whose characters satisfy `drop`. */
  function TrimLeft(s: string, drop: char -> bool): (r: string)
    ensures |r| <= |s| && r == s[|s| - |r|..]
    ensures All(s[..|s| - |r|], drop)
    ensures r == [] || !drop(r[0])
  {
    if |s| > 0 && drop(s[0]) then
      var r := TrimLeft(s[1..], drop);
      assert s[1..][..|s| - 1 - |r|] == s[1..|s| - |r|];
      r
    else s
  }

  /** Drops the longest suffix of `s` whose characters satisfy `drop`. */
  function TrimRight(s: string, drop: char -> bool): (r: string)
    ensures |r| <= |s| && r == s[..|r|]
    ensures All(s[|r|..], drop)
    ensures r == [] || !drop(r[|r| - 1])
  {
    if |s| > 0 && drop(s[|s| - 1]) then
      var init := s[..|s| - 1];
      var r := TrimRight(init, drop);
      assert init[..|r|] == s[..|r|];
      assert s[|r|..] == init[|r|..] + [s[|s| - 1]];
      r
    else s
  }

  /** `s.strip(chars)`: both ends trimmed. */
  function Trim(s: string, drop: char -> bool): string {
    TrimRight(TrimLeft(s, drop), drop)
  }

  /** `s.strip()` */
  function Strip(s: string): string {
    Trim(s, IsSpace)
  }

  /** What `strip()` leaves: empty, or starting and ending with a non-space. */
  lemma StripEnds(s: string)
    ensures Strip(s) == [] || (!IsSpace(Strip(s)[0]) && !IsSpace(Strip(s)[|Strip(s)| - 1]))
  {
    var t := TrimLeft(s, IsSpace);
    var r := TrimRight(t, IsSpace);
    if r != [] {
      assert r == t[..|r|] && r[0] == t[0];
    }
  }

  /** A string already without surrounding spaces is its own strip. */
  lemma StripKeeps(s: string)
    requires s == [] || (!IsSpace(s[0]) && !IsSpace(s[|s| - 1]))
    ensures Strip(s) == s
  {
  }

  /** `s.strip().strip() == s.strip()` */
  lemma StripIdempotent(s: string)
    ensures Strip(Strip(s)) == Strip(s)
  {
    StripEnds(s);
    StripKeeps(Strip(s));
  }

  predicate IsQuote(c: char) {
    c == '"'
  }

  /** `s.strip('"')`: quotes are dropped from either end until neither end is one. */
  function StripQuotes(s: string): string {
    if |s| > 0 && IsQuote(s[0]) then StripQuotes(s[1..])
    else if |s| > 0 && IsQuote(s[|s| - 1]) then StripQuotes(s[..|s| - 1])
    else s
  }

  /** Dropping from either end in any order is the same as `strip`: left end first, then right. */
  lemma {:induction false} StripQuotesIsTrim(s: string)
    ensures StripQuotes(s) == Trim(s, IsQuote)
    decreases |s|
  {
    if |s| > 0 && IsQuote(s[0]) {
      StripQuotesIsTrim(s[1..]);
      assert TrimLeft(s, IsQuote) == TrimLeft(s[1..], IsQuote);
    } else if |s| > 0 && IsQuote(s[|s| - 1]) {
      var init := s[..|s| - 1];
      StripQuotesIsTrim(init);
      assert TrimLeft(s, IsQuote) == s;
      assert TrimLeft(init, IsQuote) == init;
      assert TrimRight(s, IsQuote) == TrimRight(init, IsQuote);
    } else {
      assert TrimLeft(s, IsQuote) == s;
      assert TrimRight(s, IsQuote) == s;
    }
  }

  /** `s.upper()` on ASCII letters; other characters are kept. */
  function UpperChar(c: char): char {
    if 'a' <= c <= 'z' then (c as int - 'a' as int + 'A' as int) as char else c
  }

  function Upper(s: string): (r: string)
    ensures |r| == |s|
  {
    if |s| == 0 then [] else [UpperChar(s[0])] + Upper(s[1..])
  }

  /** `s[:n]`: the prefix of `s` of length n, or all of `s` when it is shorter. */
  function Take(s: string, n: nat): (r: string)
    ensures StartsWith(s, r)
    ensures |r| == if |s| <= n then |s| else n
  {
    if |s| <= n then s else s[..n]
  }

  /** `s.rfind(c)`: the index of the last `c` in `s`, or -1. */
  function LastIndexOf(s: string, c: char): (k: int)
    ensures -1 <= k < |s|
    ensures k == -1 <==> c !in s
    ensures 0 <= k ==> s[k] == c && c !in s[k + 1..]
  {
    if |s| == 0 then -1
    else if s[|s| - 1] == c then |s| - 1
    else
      var init := s[..|s| - 1];
      var k := LastIndexOf(init, c);
      assert s == init + [s[|s| - 1]];
      assert c in s <==> c in init;
      assert 0 <= k ==> s[k + 1..] == init[k + 1..] + [s[|s| - 1]];
      k
  }

  // ----- decimal rendering, as f"{n}" does it -----

  function Digit(d: nat): char
    requires d < 10
  {
    "0123456789"[d]
  }

  predicate IsDigit(c: char) {
    '0' <= c <= '9'
  }

  /** `str(n)` for a non-negative integer. */
  function NatToString(n: nat): (r: string)
    ensures |r| >= 1 && All(r, IsDigit)
    ensures r[0] == '0' ==> n == 0
  {
    if n < 10 then [Digit(n)]
    else
      var r := NatToString(n / 10) + [Digit(n % 10)];
      assert r[0] == NatToString(n / 10)[0];
      r
  }

  /** Reads a string of decimal digits back as a number (the partner of NatToString). */
  function DecimalValue(s: string): nat
    requires All(s, IsDigit)
  {
    if |s| == 0 then 0
    else DecimalValue(s[..|s| - 1]) * 10 + (s[|s| - 1] as int - '0' as int)
  }

  lemma {:induction false} NatToStringRoundTrip(n: nat)
    ensures DecimalValue(NatToString(n)) == n
  {
    if n >= 10 {
      var r := NatToString(n);
      assert r[..|r| - 1] == NatToString(n / 10);
      NatToStringRoundTrip(n / 10);
    }
  }

  // ----- lines, as str.split("\n") and "\n".join(...) make them -----

  /** `s.split("\n")`: never empty; "" gives [""]. */
  function Lines(s: string): (ls: seq<string>)
    ensures |ls| >= 1
  {
    if |s| == 0 then [""]
    else
      var rest := Lines(s[1..]);
      if s[0] == '\n' then [""] + rest else [[s[0]] + rest[0]] + rest[1..]
  }

  /** `"\n".join(ls)` */
  function JoinLines(ls: seq<string>): string {
    if |ls| == 0 then ""
    else if |ls| == 1 then ls[0]
    else ls[0] + "\n" + JoinLines(ls[1..])
  }

  lemma {:induction false} LinesHaveNoNewline(s: string)
    ensures forall k :: 0 <= k < |Lines(s)| ==> '\n' !in Lines(s)[k]
  {
    if |s| > 0 {
      LinesHaveNoNewline(s[1..]);
    }
  }

  lemma {:induction false} JoinLinesOfLines(s: string)
    ensures JoinLines(Lines(s)) == s
  {
    if |s| > 0 {
      var rest := Lines(s[1..]);
      JoinLinesOfLines(s[1..]);
      if s[0] == '\n' {
        assert Lines(s) == [""] + rest;
        assert JoinLines(Lines(s)) == "" + "\n" + JoinLines(rest);
        assert s == "\n" + s[1..];
      } else {
        var head := [s[0]] + rest[0];
        assert Lines(s) == [head] + rest[1..];
        if |rest| == 1 {
          assert JoinLines(Lines(s)) == head;
        } else {
          assert JoinLines(rest) == rest[0] + "\n" + JoinLines(rest[1..]);
          assert JoinLines(Lines(s)) == head + "\n" + JoinLines(rest[1..]);
        }
        assert s == [s[0]] + s[1..];
      }
    }
  }

  /** Splitting a newline-free line followed by "\n" and more text. */
  lemma {:induction false} LinesOfLineThen(a: string, t: string)
    requires '\n' !in a
    ensures Lines(a + "\n" + t) == [a] + Lines(t)
  {
    if |a| == 0 {
      assert ("" + "\n" + t)[1..] == t;
    } else {
      assert (a + "\n" + t)[1..] == a[1..] + "\n" + t;
      LinesOfLineThen(a[1..], t);
      assert [a[0]] + a[1..] == a;
    }
  }

  lemma {:induction false} LinesOfLine(a: string)
    requires '\n' !in a
    ensures Lines(a) == [a]
  {
    if |a| > 0 {
      LinesOfLine(a[1..]);
      assert [a[0]] + a[1..] == a;
    }
  }

  lemma {:induction false} LinesOfJoinLines(ls: seq<string>)
    requires |ls| >= 1
    requires forall k :: 0 <= k < |ls| ==> '\n' !in ls[k]
    ensures Lines(JoinLines(ls)) == ls
  {
    if |ls| == 1 {
      LinesOfLine(ls[0]);
    } else {
      LinesOfJoinLines(ls[1..]);
      LinesOfLineThen(ls[0], JoinLines(ls[1..]));
    }
  }

  /** Splitting at one newline splits the lines there: nothing is merged across it. */
  lemma {:induction false} LinesOfJoin(p: string, t: string)
    ensures Lines(p + "\n" + t) == Lines(p) + Lines(t)
  {
    if |p| == 0 {
      assert ("" + "\n" + t)[1..] == t;
    } else {
      assert (p + "\n" + t)[1..] == p[1..] + "\n" + t;
      LinesOfJoin(p[1..], t);
    }
  }

  /** A text starts with each of its prefixes. */
  lemma StartsWithConcat(p: string, s: string)
    ensures StartsWith(p + s, p)
  {
    assert (p + s)[..|p|] == p;
  }

  /** Texts whose first characters differ do not start with each other. */
  lemma FirstCharDiffers(s: string, p: string)
    requires |s| > 0 && |p| > 0 && s[0] != p[0]
    ensures !StartsWith(s, p)
  {
    if |p| <= |s| {
      assert s[..|p|][0] != p[0];
    }
  }

  /** A text that starts with `p` does not start with a `q` whose first character differs from p's. */
  lemma PrefixesDiffer(s: string, p: string, q: string)
    requires StartsWith(s, p) && |p| > 0 && |q| > 0 && p[0] != q[0]
    ensures !StartsWith(s, q)
  {
    assert s[0] == s[..|p|][0];
    FirstCharDiffers(s, q);
  }

  lemma StartsWithTrans(s: string, p: string, q: string)
    requires StartsWith(s, p) && StartsWith(p, q)
    ensures StartsWith(s, q)
  {
    assert s[..|q|] == s[..|p|][..|q|];
  }

  /** A shared prefix does not change whether one text starts with another. */
  lemma StartsWithAfter(h: string, a: string, b: string)
    ensures StartsWith(h + a, h + b) <==> StartsWith(a, b)
  {
    if StartsWith(h + a, h + b) {
      assert a[..|b|] == (h + a)[|h|..|h| + |b|];
    }
    if StartsWith(a, b) {
      assert (h + a)[..|h + b|] == h + a[..|b|];
    }
  }
}
