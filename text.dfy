/**
 * Character classes and string operations of Python that the query
 * translators and configuration checks rely on.
 */
module Text {

  /** Python's `str.isspace()`: the characters that `\s` matches in a `str`
      pattern and at which `str.split()` cuts. */
  predicate IsSpace(c: char)
  {
    || c == ' ' || '\t' <= c <= '\r' || '\U{1c}' <= c <= '\U{1f}'
    || c == '\U{85}' || c == '\U{a0}' || c == '\U{1680}'
    || '\U{2000}' <= c <= '\U{200a}' || c == '\U{2028}' || c == '\U{2029}'
    || c == '\U{202f}' || c == '\U{205f}' || c == '\U{3000}'
  }

  /** A quote character as matched by the class `["']`. */
  predicate IsQuote(c: char)
  {
    c == '"' || c == '\''
  }

  /** A word character for `\b`: ASCII letters, digits and underscore. */
  predicate IsWordChar(c: char)
  {
    'a' <= c <= 'z' || 'A' <= c <= 'Z' || '0' <= c <= '9' || c == '_'
  }

  /** ASCII lower-casing of one character. */
  function Lower(c: char): char
  {
    if 'A' <= c <= 'Z' then (c as int + 32) as char else c
  }

  /** `s.lower()`, restricted to ASCII letters. */
  function LowerStr(s: string): (r: string)
    ensures |r| == |s|
    ensures forall i :: 0 <= i < |s| ==> r[i] == Lower(s[i])
  {
    seq(|s|, i requires 0 <= i < |s| => Lower(s[i]))
  }

  /** Does subject character c match the lower-case pattern letter p under
      re.IGNORECASE? Its simple lower-case mapping must be p, or it must be one
      of the extra equivalents the regular-expression engine adds (dotless i
      for i, long s for s). The dotted capital I and the Kelvin sign have i and
      k as their simple lower-case mappings. */
  predicate MatchesIgnoreCase(c: char, p: char)
  {
    || Lower(c) == p
    || (p == 'i' && (c == '\U{130}' || c == '\U{131}'))
    || (p == 's' && c == '\U{17f}')
    || (p == 'k' && c == '\U{212a}')
  }

  /** No character matches two different lower-case ASCII letters. */
  lemma MatchesOneLetter(c: char, p: char, q: char)
    requires 'a' <= p <= 'z' && 'a' <= q <= 'z' && p != q
    requires MatchesIgnoreCase(c, p)
    ensures !MatchesIgnoreCase(c, q)
  {
  }

  /** The lower-case pattern word w matches s at position i, ignoring case. */
  predicate WordAt(s: string, i: nat, w: string)
  {
    i + |w| <= |s| && forall j :: 0 <= j < |w| ==> MatchesIgnoreCase(s[i + j], w[j])
  }

  /** Two lower-case words that differ in a letter at position j cannot
      both match at i. */
  lemma WordsExclusive(s: string, i: nat, v: string, w: string, j: nat)
    requires j < |v| && j < |w| && 'a' <= v[j] <= 'z' && 'a' <= w[j] <= 'z' && v[j] != w[j]
    requires WordAt(s, i, v)
    ensures !WordAt(s, i, w)
  {
    assert MatchesIgnoreCase(s[i + j], v[j]);
    MatchesOneLetter(s[i + j], v[j], w[j]);
  }

  /** The first index at or after i that is not whitespace (|s| if none):
      where a greedy `\s*` starting at i stops. */
  function SkipSpace(s: string, i: nat): (j: nat)
    requires i <= |s|
    ensures i <= j <= |s|
    ensures forall k :: i <= k < j ==> IsSpace(s[k])
    ensures j < |s| ==> !IsSpace(s[j])
    decreases |s| - i
  {
    if i == |s| || !IsSpace(s[i]) then i else SkipSpace(s, i + 1)
  }

  /** The first index at or after i that is whitespace (|s| if none):
      where a greedy `[^\s]+` or a `str.split()` token starting at i stops. */
  function SkipToken(s: string, i: nat): (j: nat)
    requires i <= |s|
    ensures i <= j <= |s|
    ensures forall k :: i <= k < j ==> !IsSpace(s[k])
    ensures j < |s| ==> IsSpace(s[j])
    decreases |s| - i
  {
    if i == |s| || IsSpace(s[i]) then i else SkipToken(s, i + 1)
  }

  /** s[lo..hi] is all whitespace. */
  ghost predicate AllSpace(s: string, lo: nat, hi: nat)
    requires lo <= hi <= |s|
  {
    forall k :: lo <= k < hi ==> IsSpace(s[k])
  }

  /** s[lo..hi] holds no whitespace. */
  ghost predicate NoSpaceIn(s: string, lo: nat, hi: nat)
    requires lo <= hi <= |s|
  {
    forall k :: lo <= k < hi ==> !IsSpace(s[k])
  }

  /** Where a greedy `\s*` starting at i stops is determined by the text. */
  lemma SkipSpaceStops(s: string, i: nat, a: nat)
    requires i <= a <= |s| && AllSpace(s, i, a) && (a == |s| || !IsSpace(s[a]))
    ensures SkipSpace(s, i) == a
  {
  }

  /** Where a greedy `[^\s]+` starting at b stops is determined by the text. */
  lemma SkipTokenStops(s: string, b: nat, e: nat)
    requires b <= e <= |s| && NoSpaceIn(s, b, e) && (e == |s| || IsSpace(s[e]))
    ensures SkipToken(s, b) == e
  {
  }

  /** A string with no whitespace character. */
  predicate NoSpace(t: string)
  {
    forall k :: 0 <= k < |t| ==> !IsSpace(t[k])
  }

  /** `s.split()`: the maximal runs of non-whitespace characters, in order. */
  function Split(s: string): (r: seq<string>)
    ensures forall k :: 0 <= k < |r| ==> r[k] != "" && NoSpace(r[k])
    decreases |s|
  {
    if s == "" then []
    else if IsSpace(s[0]) then Split(s[1..])
    else
      var n := SkipToken(s, 0);
      assert forall k :: 0 <= k < n ==> s[..n][k] == s[k];
      [s[..n]] + Split(s[n..])
  }

  /** `sep.join(parts)`. */
  function Join(parts: seq<string>, sep: string): string
  {
    if parts == [] then ""
    else if |parts| == 1 then parts[0]
    else parts[0] + sep + Join(parts[1..], sep)
  }

  /** Every part is a possible `str.split()` token: non-empty, without whitespace. */
  predicate Tokens(parts: seq<string>)
  {
    forall k :: 0 <= k < |parts| ==> parts[k] != "" && NoSpace(parts[k])
  }

  /** r has no leading or trailing whitespace, and each whitespace character
      in it is a single blank between two non-blank characters. */
  predicate SingleSpaced(r: string)
  {
    && (r == "" || (!IsSpace(r[0]) && !IsSpace(r[|r| - 1])))
    && forall k :: 0 <= k < |r| && IsSpace(r[k]) ==>
         r[k] == ' ' && 0 < k < |r| - 1 && !IsSpace(r[k - 1]) && !IsSpace(r[k + 1])
  }

  /** Splitting a token followed by whitespace (or nothing) yields the token first. */
  lemma SplitToken(t: string, rest: string)
    requires t != "" && NoSpace(t) && (rest == "" || IsSpace(rest[0]))
    ensures Split(t + rest) == [t] + Split(rest)
  {
    var s := t + rest;
    assert s[0] == t[0];
    assert forall k :: 0 <= k < |t| ==> s[k] == t[k];
    SkipTokenStops(s, 0, |t|);
    assert s[..|t|] == t;
    assert s[|t|..] == rest;
  }

  /** Leading whitespace contributes no token. */
  lemma SplitSpace(c: char, s: string)
    requires IsSpace(c)
    ensures Split([c] + s) == Split(s)
  {
    assert ([c] + s)[1..] == s;
  }

  /** Splitting at a whitespace character: the tokens of the text before it,
      in order, followed by the tokens of the text after it. */
  lemma {:induction false} SplitAtSpace(a: string, c: char, b: string)
    requires IsSpace(c)
    ensures Split(a + [c] + b) == Split(a) + Split(b)
    decreases |a|
  {
    var rest := [c] + b;
    assert a + [c] + b == a + rest;
    if a == "" {
      assert a + rest == rest;
      SplitSpace(c, b);
    } else if IsSpace(a[0]) {
      var tail := a[1..];
      SplitAtSpace(tail, c, b);
      SplitSpaceHead(a, rest);
      assert tail + [c] + b == tail + rest;
    } else {
      var n := SkipToken(a, 0);
      var tail := a[n..];
      SplitAtSpace(tail, c, b);
      SplitTokenHead(a, n, rest);
      assert tail + [c] + b == tail + rest;
      assert Split(a) == [a[..n]] + Split(tail);
    }
  }

  /** A leading blank of a is skipped, whatever follows a. */
  lemma SplitSpaceHead(a: string, rest: string)
    requires a != "" && IsSpace(a[0])
    ensures Split(a + rest) == Split(a[1..] + rest)
  {
    assert (a + rest)[0] == a[0];
    assert (a + rest)[1..] == a[1..] + rest;
  }

  /** The leading token of a, which ends at n, is the leading token of
      a + rest when rest starts with whitespace. */
  lemma SplitTokenHead(a: string, n: nat, rest: string)
    requires a != "" && !IsSpace(a[0]) && n == SkipToken(a, 0)
    requires rest != "" && IsSpace(rest[0])
    ensures Split(a + rest) == [a[..n]] + Split(a[n..] + rest)
    ensures Split(a) == [a[..n]] + Split(a[n..])
  {
    var s := a + rest;
    assert forall k :: 0 <= k < n ==> s[k] == a[k];
    assert IsSpace(s[n]) by {
      if n < |a| { assert s[n] == a[n]; } else { assert s[n] == rest[0]; }
    }
    SkipTokenStops(s, 0, n);
    assert s[..n] == a[..n];
    assert s[n..] == a[n..] + rest;
  }

  /** `s.split()` is empty exactly when s is all whitespace. */
  lemma {:induction false} SplitEmpty(s: string)
    ensures Split(s) == [] <==> forall k :: 0 <= k < |s| ==> IsSpace(s[k])
    decreases |s|
  {
    if s != "" && IsSpace(s[0]) {
      SplitEmpty(s[1..]);
      assert forall k :: 1 <= k < |s| ==> s[k] == s[1..][k - 1];
    }
  }

  /** Round trip: splitting tokens joined by single blanks gives the tokens back. */
  lemma {:induction false} SplitJoin(parts: seq<string>)
    requires Tokens(parts)
    ensures Split(Join(parts, " ")) == parts
  {
    if |parts| == 1 {
      SplitToken(parts[0], "");
      assert parts[0] + "" == parts[0];
    } else if |parts| > 1 {
      var rest := Join(parts[1..], " ");
      SplitJoin(parts[1..]);
      SplitToken(parts[0], " " + rest);
      assert parts[0] + " " + rest == parts[0] + (" " + rest);
      assert (" " + rest)[1..] == rest;
    }
  }

  /** Tokens joined by single blanks are single-spaced. */
  lemma {:induction false} JoinSingleSpaced(parts: seq<string>)
    requires Tokens(parts)
    ensures SingleSpaced(Join(parts, " "))
    ensures Join(parts, " ") == "" <==> parts == []
  {
    if |parts| > 1 {
      var t := parts[0];
      var rest := Join(parts[1..], " ");
      JoinSingleSpaced(parts[1..]);
      var r := Join(parts, " ");
      assert r == t + " " + rest;
      assert forall k :: 0 <= k < |t| ==> r[k] == t[k];
      forall k | |t| <= k < |r| && IsSpace(r[k])
        ensures r[k] == ' ' && 0 < k < |r| - 1 && !IsSpace(r[k - 1]) && !IsSpace(r[k + 1])
      {
        if k == |t| {
          assert r[k + 1] == rest[0];
          assert r[k - 1] == t[|t| - 1];
        } else {
          assert r[k] == rest[k - |t| - 1];
          assert r[k - 1] == (if k - 1 == |t| then ' ' else rest[k - 2 - |t|]);
          assert r[k + 1] == rest[k - |t|];
        }
      }
      assert r[0] == t[0];
      assert r[|r| - 1] == rest[|rest| - 1];
    }
  }

  /** `s.strip('"\'')`: drops every leading and every trailing quote. */
  function StripQuotes(s: string): (r: string)
    ensures r == "" || (!IsQuote(r[0]) && !IsQuote(r[|r| - 1]))
    ensures exists a, b :: 0 <= a <= b <= |s| && r == s[a..b] &&
                           (forall k :: 0 <= k < a ==> IsQuote(s[k])) &&
                           (forall k :: b <= k < |s| ==> IsQuote(s[k]))
  {
    var a := QuotePrefix(s, 0);
    var b := QuoteSuffix(s, a, |s|);
    s[a..b]
  }

  /** The end of the run of quotes that starts at i. */
  function QuotePrefix(s: string, i: nat): (a: nat)
    requires i <= |s|
    ensures i <= a <= |s|
    ensures forall k :: i <= k < a ==> IsQuote(s[k])
    ensures a < |s| ==> !IsQuote(s[a])
    decreases |s| - i
  {
    if i == |s| || !IsQuote(s[i]) then i else QuotePrefix(s, i + 1)
  }

  /** The start of the run of quotes that ends at b, not going below lo. */
  function QuoteSuffix(s: string, lo: nat, b: nat): (c: nat)
    requires lo <= b <= |s|
    ensures lo <= c <= b
    ensures forall k :: c <= k < b ==> IsQuote(s[k])
    ensures c > lo ==> !IsQuote(s[c - 1])
    decreases b
  {
    if b == lo || !IsQuote(s[b - 1]) then b else QuoteSuffix(s, lo, b - 1)
  }

  /** `s.replace(c, '')`. */
  function RemoveChar(s: string, c: char): (r: string)
    ensures c !in r
    ensures forall x :: x in r ==> x in s
  {
    if s == "" then "" else (if s[0] == c then "" else [s[0]]) + RemoveChar(s[1..], c)
  }

  /** Python's `str(n)` for an integer: its decimal digits, with a leading minus when negative. */
  function IntToString(n: int): (r: string)
    ensures r != ""
    ensures (r[0] == '-') <==> n < 0
  {
    if n < 0 then "-" + NatToString(-n) else NatToString(n)
  }

  function NatToString(n: nat): (r: string)
    ensures r != "" && forall k :: 0 <= k < |r| ==> '0' <= r[k] <= '9'
    decreases n
  {
    var d := [(48 + n % 10) as char];
    if n < 10 then d else NatToString(n / 10) + d
  }
}
