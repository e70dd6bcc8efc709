/**
 * `_parse_cql_to_simple_query`: the custom-API branch of search_content
 * reduces a CQL query to plain search terms in three passes:
 *  1. every whole-word `and`, `or` or `not` (any case) becomes a blank;
 *  2. every `(space|type|title|text)\s*=\s*["']?([^"']+)["']?` clause (any
 *     case) is replaced by its value group;
 *  3. the whitespace-separated terms longer than two characters are joined
 *     by single blanks.
 */
module ConfluenceCql {
  import opened Json
  import opened Text

  // ---------------------------------------------------------------------
  // Pass 1: `re.sub(r'\b(and|or|not)\b', ' ', cql, flags=re.IGNORECASE)`
  // ---------------------------------------------------------------------

  /** The lower-case word w occurs at i (any case) with a word boundary on
      both sides. The matched characters are ASCII letters, hence word
      characters, so `\b` needs a non-word character or an end of the
      string on the outside. */
  predicate BooleanWord(s: string, i: nat, w: string)
  {
    && WordAt(s, i, w)
    && (i == 0 || !IsWordChar(s[i - 1]))
    && (i + |w| == |s| || !IsWordChar(s[i + |w|]))
  }

  /** The length of the boolean keyword matched at i, or 0 when none is.
      The alternatives are tried in the order and, or, not. */
  function BooleanWordAt(s: string, i: nat): (n: nat)
    ensures n > 0 <==> BooleanWord(s, i, "and") || BooleanWord(s, i, "or") || BooleanWord(s, i, "not")
    ensures n > 0 ==> i + n <= |s| && LowerStr(s[i..i + n]) in {"and", "or", "not"}
  {
    if BooleanWord(s, i, "and") then
      assert LowerStr(s[i..i + 3]) == "and";
      3
    else if BooleanWord(s, i, "or") then
      assert LowerStr(s[i..i + 2]) == "or";
      2
    else if BooleanWord(s, i, "not") then
      assert LowerStr(s[i..i + 3]) == "not";
      3
    else 0
  }

  /** The substitution applied from position i of the original string on:
      each keyword match becomes one blank, every other character is kept. */
  function StripBooleansFrom(s: string, i: nat): string
    requires i <= |s|
    decreases |s| - i
  {
    if i == |s| then ""
    else
      var n := BooleanWordAt(s, i);
      if n > 0 then " " + StripBooleansFrom(s, i + n)
      else [s[i]] + StripBooleansFrom(s, i + 1)
  }

  function StripBooleans(cql: string): string
  {
    StripBooleansFrom(cql, 0)
  }

  /** Where no keyword matches, the first pass changes nothing. */
  lemma {:induction false} StripBooleansUntouched(s: string, i: nat)
    requires i <= |s|
    requires forall j :: i <= j < |s| ==> BooleanWordAt(s, j) == 0
    ensures StripBooleansFrom(s, i) == s[i..]
    decreases |s| - i
  {
    if i < |s| {
      StripBooleansUntouched(s, i + 1);
      assert s[i..] == [s[i]] + s[i + 1..];
    }
  }

  /** No keyword starts right after a word character: `\b` fails there, so
      the text from such a position on is kept by the keyword test. */
  lemma KeywordAfterWordCharIsKept(s: string, i: nat)
    requires 0 < i <= |s| && IsWordChar(s[i - 1])
    ensures BooleanWordAt(s, i) == 0
  {
  }

  /** A keyword is replaced whatever its case, and only at word boundaries:
      a lone `AND` goes, while `band` keeps its `and`. */
  lemma KeywordNeedsBoundaries()
    ensures StripBooleans("AND") == " "
    ensures StripBooleans("band") == "band"
  {
    assert BooleanWord("AND", 0, "and");
    var t := "band";
    assert !BooleanWord(t, 1, "and");
    assert forall j :: 0 <= j < |t| ==> BooleanWordAt(t, j) == 0;
    StripBooleansUntouched(t, 0);
  }

  // ---------------------------------------------------------------------
  // Pass 2: the field-clause substitution
  // ---------------------------------------------------------------------

  /** The field name of a clause ends at p, in one of four spellings (any case). */
  predicate FieldName(s: string, i: nat, p: nat)
  {
    || (WordAt(s, i, "space") && p == i + 5)
    || (WordAt(s, i, "type") && p == i + 4)
    || (WordAt(s, i, "title") && p == i + 5)
    || (WordAt(s, i, "text") && p == i + 4)
  }

  /** The length of the field name at i, or 0. The four spellings differ in
      a letter no character can match twice, so at most one applies. */
  function FieldNameLength(s: string, i: nat): (n: nat)
    ensures n > 0 <==> exists p :: FieldName(s, i, p)
    ensures forall p :: FieldName(s, i, p) ==> p == i + n
  {
    if WordAt(s, i, "space") then
      WordsExclusive(s, i, "space", "type", 0);
      WordsExclusive(s, i, "space", "title", 0);
      WordsExclusive(s, i, "space", "text", 0);
      assert FieldName(s, i, i + 5);
      5
    else if WordAt(s, i, "type") then
      WordsExclusive(s, i, "type", "title", 1);
      WordsExclusive(s, i, "type", "text", 1);
      assert FieldName(s, i, i + 4);
      4
    else if WordAt(s, i, "title") then
      WordsExclusive(s, i, "title", "text", 1);
      assert FieldName(s, i, i + 5);
      5
    else if WordAt(s, i, "text") then
      assert FieldName(s, i, i + 4);
      4
    else 0
  }

  ghost predicate NoQuoteIn(s: string, lo: nat, hi: nat)
    requires lo <= hi <= |s|
  {
    forall k :: lo <= k < hi ==> !IsQuote(s[k])
  }

  /** The first quote at or after g, or |s|: where a greedy `[^"']+` stops. */
  function ValueEnd(s: string, g: nat): (e: nat)
    requires g <= |s|
    ensures g <= e <= |s| && NoQuoteIn(s, g, e) && (e < |s| ==> IsQuote(s[e]))
    decreases |s| - g
  {
    if g == |s| || IsQuote(s[g]) then g else ValueEnd(s, g + 1)
  }

  /** A clause match: the value group s[valueStart..valueEnd] replaces
      s[i..matchEnd]. */
  datatype Clause = Clause(valueStart: nat, valueEnd: nat, matchEnd: nat)

  /** Reference reading: one way the pattern can match at i, with the second
      `\s*` ending at w, the value group s[g0..g1] and the match ending at m. */
  ghost predicate FieldMatchWith(s: string, i: nat, p: nat, a: nat, w: nat, g0: nat, g1: nat, m: nat)
  {
    && FieldName(s, i, p)
    && p <= a < |s| && AllSpace(s, p, a) && s[a] == '='
    && a + 1 <= w <= |s| && AllSpace(s, a + 1, w)
    && (g0 == w || (g0 == w + 1 && w < |s| && IsQuote(s[w])))
    && g0 < g1 <= |s| && NoQuoteIn(s, g0, g1)
    && (m == g1 || (m == g1 + 1 && g1 < |s| && IsQuote(s[g1])))
  }

  ghost predicate FieldMatch(s: string, i: nat, g0: nat, g1: nat, m: nat)
  {
    exists p: nat, a: nat, w: nat :: FieldMatchWith(s, i, p, a, w, g0, g1, m)
  }

  /** The clause whose value group starts at g0 and is as long as possible,
      with the closing quote taken when there is one. */
  function ClauseFrom(s: string, g0: nat): Clause
    requires g0 <= |s|
  {
    var e := ValueEnd(s, g0);
    Clause(g0, e, if e < |s| then e + 1 else e)
  }

  /** The match the backtracking engine finds at i, if any. After `=` and
      the greedy blanks ending at w, the value starts at w when s[w] is not a
      quote, or after the opening quote at w when the next character is not
      a quote either. Otherwise the engine gives one blank back to the
      `\s*`, and that blank becomes the whole value (so `title = ""` is
      replaced by a single blank); without a blank to give back there is no
      match. */
  function FieldClauseAt(s: string, i: nat): (c: Option<Clause>)
    ensures c.Some? ==> i < c.value.valueStart < c.value.valueEnd <= c.value.matchEnd <= |s|
    ensures c.Some? ==> c.value.valueEnd == |s| || IsQuote(s[c.value.valueEnd])
    ensures c.Some? ==>
      c.value.matchEnd == (if c.value.valueEnd < |s| then c.value.valueEnd + 1 else c.value.valueEnd)
  {
    var n := FieldNameLength(s, i);
    if n == 0 then None
    else
      var a := SkipSpace(s, i + n);
      if a == |s| || s[a] != '=' then None
      else
        var w := SkipSpace(s, a + 1);
        if w < |s| && !IsQuote(s[w]) then Some(ClauseFrom(s, w))
        else if w + 1 < |s| && !IsQuote(s[w + 1]) then Some(ClauseFrom(s, w + 1))
        else if w > a + 1 then Some(ClauseFrom(s, w - 1))
        else None
  }

  /** Every clause the model replaces is a match of the pattern. */
  lemma FieldClauseSound(s: string, i: nat)
    requires FieldClauseAt(s, i).Some?
    ensures var c := FieldClauseAt(s, i).value; FieldMatch(s, i, c.valueStart, c.valueEnd, c.matchEnd)
  {
    var p, a, w := FieldClauseParts(s, i);
    if w < |s| && !IsQuote(s[w]) {
      ClauseFromIsMatch(s, i, p, a, w, w);
    } else if w + 1 < |s| && !IsQuote(s[w + 1]) {
      ClauseFromIsMatch(s, i, p, a, w, w + 1);
    } else {
      assert IsSpace(s[w - 1]) && !IsQuote(s[w - 1]);
      ClauseFromIsMatch(s, i, p, a, w - 1, w - 1);
    }
  }

  /** The field name, the `=` and the blanks around it that the scanner
      finds at a position where it builds a clause. */
  lemma FieldClauseParts(s: string, i: nat) returns (p: nat, a: nat, w: nat)
    requires FieldClauseAt(s, i).Some?
    ensures FieldName(s, i, p) && p <= a < |s| && AllSpace(s, p, a) && s[a] == '='
    ensures a + 1 <= w <= |s| && AllSpace(s, a + 1, w) && (w < |s| ==> !IsSpace(s[w]))
    ensures FieldClauseAt(s, i) ==
      if w < |s| && !IsQuote(s[w]) then Some(ClauseFrom(s, w))
      else if w + 1 < |s| && !IsQuote(s[w + 1]) then Some(ClauseFrom(s, w + 1))
      else Some(ClauseFrom(s, w - 1))
    ensures (w < |s| && !IsQuote(s[w])) || (w + 1 < |s| && !IsQuote(s[w + 1])) || w > a + 1
  {
    p := i + FieldNameLength(s, i);
    FieldNameFound(s, i);
    a := SkipSpace(s, p);
    w := SkipSpace(s, a + 1);
  }

  /** The spelling whose length FieldNameLength reports is at i. */
  lemma FieldNameFound(s: string, i: nat)
    requires FieldNameLength(s, i) > 0
    ensures FieldName(s, i, i + FieldNameLength(s, i))
  {
  }

  /** The clause the scanner builds from a value start g0 after the blanks
      ending at w is a match of the pattern. */
  lemma ClauseFromIsMatch(s: string, i: nat, p: nat, a: nat, w: nat, g0: nat)
    requires FieldName(s, i, p) && p <= a < |s| && AllSpace(s, p, a) && s[a] == '='
    requires a + 1 <= w <= |s| && AllSpace(s, a + 1, w)
    requires g0 == w || (g0 == w + 1 && w < |s| && IsQuote(s[w]))
    requires g0 < |s| && !IsQuote(s[g0])
    ensures var c := ClauseFrom(s, g0); FieldMatch(s, i, c.valueStart, c.valueEnd, c.matchEnd)
  {
    var c := ClauseFrom(s, g0);
    assert FieldMatchWith(s, i, p, a, w, c.valueStart, c.valueEnd, c.matchEnd);
  }

  /** Whenever the pattern can match at i, the model replaces a clause there. */
  lemma FieldClauseComplete(s: string, i: nat, g0: nat, g1: nat, m: nat)
    requires FieldMatch(s, i, g0, g1, m)
    ensures FieldClauseAt(s, i).Some?
  {
    var p: nat, a: nat, w: nat :| FieldMatchWith(s, i, p, a, w, g0, g1, m);
    var n := FieldNameLength(s, i);
    assert p == i + n;
    SkipSpaceStops(s, p, a);
    var w' := SkipSpace(s, a + 1);
    assert w <= w';
    if w' == a + 1 {
      assert w == w';
      assert g0 < |s| && !IsQuote(s[g0]);
    }
  }

  /** The substitution from position i of its input on: a clause is
      replaced by its value group, every other character is kept. */
  function StripFieldsFrom(s: string, i: nat): string
    requires i <= |s|
    decreases |s| - i
  {
    if i == |s| then ""
    else
      match FieldClauseAt(s, i)
      case Some(c) => s[c.valueStart..c.valueEnd] + StripFieldsFrom(s, c.matchEnd)
      case None => [s[i]] + StripFieldsFrom(s, i + 1)
  }

  function StripFields(query: string): string
  {
    StripFieldsFrom(query, 0)
  }

  /** A quoted clause: a field name ending at p, blanks up to the `=` at a,
      blanks up to the opening quote at w, and a closing quote at e with
      at least one other character in between. */
  ghost predicate QuotedClause(s: string, i: nat, p: nat, a: nat, w: nat, e: nat)
  {
    && FieldName(s, i, p) && p <= a < w && w + 1 < e < |s|
    && AllSpace(s, p, a) && s[a] == '=' && AllSpace(s, a + 1, w)
    && IsQuote(s[w]) && NoQuoteIn(s, w + 1, e) && IsQuote(s[e])
  }

  /** A quoted clause is replaced by the text between its quotes, and the
      rewriting resumes after the closing quote: `title = "Release Notes"`
      becomes `Release Notes`. */
  lemma QuotedClauseReplaced(s: string, i: nat, p: nat, a: nat, w: nat, e: nat)
    requires QuotedClause(s, i, p, a, w, e)
    ensures FieldClauseAt(s, i) == Some(Clause(w + 1, e, e + 1))
    ensures StripFieldsFrom(s, i) == s[w + 1..e] + StripFieldsFrom(s, e + 1)
  {
    QuotedClauseFound(s, i, p, a, w, e);
    StripFieldsAtClause(s, i, w + 1, e, e + 1);
  }

  /** Where the scanner finds a clause, the substitution emits its value
      group and resumes at the end of the match. */
  lemma StripFieldsAtClause(s: string, i: nat, g0: nat, g1: nat, m: nat)
    requires i < |s| && FieldClauseAt(s, i) == Some(Clause(g0, g1, m))
    ensures g0 <= g1 <= m <= |s|
    ensures StripFieldsFrom(s, i) == s[g0..g1] + StripFieldsFrom(s, m)
  {
  }

  /** The clause the scanner finds at a quoted clause. */
  lemma QuotedClauseFound(s: string, i: nat, p: nat, a: nat, w: nat, e: nat)
    requires QuotedClause(s, i, p, a, w, e)
    ensures FieldClauseAt(s, i) == Some(Clause(w + 1, e, e + 1))
  {
    assert FieldNameLength(s, i) == p - i;
    SkipSpaceStops(s, p, a);
    SkipSpaceStops(s, a + 1, w);
    assert !IsQuote(s[w + 1]);
    assert ValueEnd(s, w + 1) == e;
  }

  /** An unquoted value runs up to the next quote or the end of the query,
      so a later clause is swallowed by it rather than rewritten: in
      `space = DEV type = page` the whole `DEV type = page` is the value. */
  lemma UnquotedValueRunsToEnd(s: string, i: nat, p: nat, a: nat, w: nat)
    requires FieldName(s, i, p) && p <= a < w < |s| && AllSpace(s, p, a) && s[a] == '='
    requires AllSpace(s, a + 1, w) && !IsSpace(s[w]) && NoQuoteIn(s, w, |s|)
    ensures StripFieldsFrom(s, i) == s[w..]
  {
    SkipSpaceStops(s, p, a);
    SkipSpaceStops(s, a + 1, w);
    assert ValueEnd(s, w) == |s|;
    assert FieldClauseAt(s, i) == Some(Clause(w, |s|, |s|));
  }

  // ---------------------------------------------------------------------
  // Pass 3: the long terms, joined by single blanks
  // ---------------------------------------------------------------------

  /** `[term for term in terms if len(term) > 2]`. */
  function LongTerms(terms: seq<string>): (r: seq<string>)
    ensures forall k :: 0 <= k < |r| ==> |r[k]| > 2
    ensures forall t :: t in r <==> t in terms && |t| > 2
    ensures |r| <= |terms|
  {
    if terms == [] then []
    else
      var rest := LongTerms(terms[1..]);
      assert forall t :: t in terms <==> t == terms[0] || t in terms[1..];
      if |terms[0]| > 2 then [terms[0]] + rest else rest
  }

  /** A single term is kept exactly when it is longer than two characters. */
  lemma LongTermsOne(t: string)
    ensures LongTerms([t]) == if |t| > 2 then [t] else []
  {
    assert [t][1..] == [];
  }

  /** The filter keeps order and multiplicity: the long terms of a
      concatenation are the long terms of each part, in that order. */
  lemma {:induction false} LongTermsAppend(a: seq<string>, b: seq<string>)
    ensures LongTerms(a + b) == LongTerms(a) + LongTerms(b)
  {
    if a == [] {
      assert a + b == b;
    } else {
      assert (a + b)[0] == a[0];
      assert (a + b)[1..] == a[1..] + b;
      LongTermsAppend(a[1..], b);
    }
  }

  /** The long terms of well-formed tokens are well-formed tokens. */
  lemma {:induction false} LongTermsAreTokens(terms: seq<string>)
    requires Tokens(terms)
    ensures Tokens(LongTerms(terms))
  {
    if terms != [] {
      LongTermsAreTokens(terms[1..]);
    }
  }

  /** `_parse_cql_to_simple_query`. Its terms are exactly the long terms of
      the rewritten query, in their order; every term has more than two
      characters; terms are separated by single blanks, with no blank at
      either end. */
  function ParseCqlToSimpleQuery(cql: string): (r: string)
    ensures Split(r) == LongTerms(Split(StripFields(StripBooleans(cql))))
    ensures forall k :: 0 <= k < |Split(r)| ==> |Split(r)[k]| > 2
    ensures SingleSpaced(r)
  {
    var terms := LongTerms(Split(StripFields(StripBooleans(cql))));
    LongTermsAreTokens(Split(StripFields(StripBooleans(cql))));
    SplitJoin(terms);
    JoinSingleSpaced(terms);
    Join(terms, " ")
  }
}
