/**
 * The case-insensitive pattern `<name>\s*=\s*([^\s]+)` with which the Jira
 * client picks filters out of a JQL query: a scanner for one starting
 * position, a reference reading of what a match is, and `re.search`.
 */
module JqlPattern {
  import opened Json
  import opened Text

  /** The group captured by `name\s*=\s*([^\s]+)` when a match starts exactly
      at i (re.IGNORECASE), or None when no match starts there. Both `\s*` are
      greedy, and backing off either of them cannot help because the next
      pattern item (`=` or `[^\s]`) never matches whitespace. */
  function MatchAt(s: string, name: string, i: nat): Option<string>
  {
    if !WordAt(s, i, name) then None
    else
      var a := SkipSpace(s, i + |name|);
      if a == |s| || s[a] != '=' then None
      else
        var b := SkipSpace(s, a + 1);
        if b == |s| then None else Some(s[b..SkipToken(s, b)])
  }

  /** One way the pattern can match at i: the name, whitespace up to the `=`
      at a, whitespace up to b, and the maximal non-whitespace run s[b..e]. */
  ghost predicate ClauseWith(s: string, name: string, i: nat, a: nat, b: nat, e: nat)
  {
    && WordAt(s, i, name)
    && i + |name| <= a < b < e <= |s|
    && AllSpace(s, i + |name|, a) && s[a] == '=' && AllSpace(s, a + 1, b)
    && NoSpaceIn(s, b, e) && (e == |s| || IsSpace(s[e]))
  }

  /** Reference reading of the pattern: at i the name occurs (any case), then
      some whitespace, `=`, some whitespace, and v is a maximal non-empty run
      of non-whitespace characters. */
  ghost predicate ClauseAt(s: string, name: string, i: nat, v: string)
  {
    exists a: nat, b: nat, e: nat :: ClauseWith(s, name, i, a, b, e) && v == s[b..e]
  }

  /** Every group the scanner reports is a clause of the reference reading. */
  lemma MatchAtSound(s: string, name: string, i: nat)
    requires MatchAt(s, name, i).Some?
    ensures ClauseAt(s, name, i, MatchAt(s, name, i).value)
  {
    var a := SkipSpace(s, i + |name|);
    var b := SkipSpace(s, a + 1);
    var e := SkipToken(s, b);
    assert ClauseWith(s, name, i, a, b, e);
  }

  /** Every clause of the reference reading is found by the scanner. */
  lemma MatchAtComplete(s: string, name: string, i: nat, v: string)
    requires ClauseAt(s, name, i, v)
    ensures MatchAt(s, name, i) == Some(v)
  {
    var a: nat, b: nat, e: nat :| ClauseWith(s, name, i, a, b, e) && v == s[b..e];
    SkipSpaceStops(s, i + |name|, a);
    SkipSpaceStops(s, a + 1, b);
    SkipTokenStops(s, b, e);
  }

  /** The scanner agrees with the reference reading, in both directions. */
  lemma MatchAtMeaning(s: string, name: string, i: nat, v: string)
    ensures MatchAt(s, name, i) == Some(v) <==> ClauseAt(s, name, i, v)
  {
    if MatchAt(s, name, i) == Some(v) {
      MatchAtSound(s, name, i);
    }
    if ClauseAt(s, name, i, v) {
      MatchAtComplete(s, name, i, v);
    }
  }

  /** i is the leftmost position at or after from where the scanner matches. */
  ghost predicate Leftmost(s: string, name: string, from: nat, i: nat)
  {
    from <= i && MatchAt(s, name, i).Some? &&
    forall j :: from <= j < i ==> MatchAt(s, name, j).None?
  }

  /** `re.search(name\s*=\s*([^\s]+), s[from:], re.IGNORECASE)`: it tries
      each starting position from left to right and stops at the first match. */
  function Search(s: string, name: string, from: nat): Option<string>
    decreases |s| + 1 - from
  {
    if from > |s| then None
    else if MatchAt(s, name, from).Some? then MatchAt(s, name, from)
    else Search(s, name, from + 1)
  }

  /** Search reports the match at the leftmost position where one starts,
      and None only when no position at or after from has one. */
  lemma {:induction false} SearchMeaning(s: string, name: string, from: nat)
    ensures var r := Search(s, name, from);
      && (r.Some? ==> exists i :: Leftmost(s, name, from, i) && r == MatchAt(s, name, i))
      && (r.None? ==> forall i :: from <= i ==> MatchAt(s, name, i).None?)
    decreases |s| + 1 - from
  {
    if from > |s| {
    } else if MatchAt(s, name, from).Some? {
      assert Leftmost(s, name, from, from);
    } else {
      SearchMeaning(s, name, from + 1);
      LeftmostExtends(s, name, from, from + 1, Search(s, name, from + 1));
    }
  }

  lemma LeftmostExtends(s: string, name: string, from: nat, next: nat, r: Option<string>)
    requires next == from + 1 && MatchAt(s, name, from).None?
    requires r.Some? ==> exists i :: Leftmost(s, name, next, i) && r == MatchAt(s, name, i)
    ensures r.Some? ==> exists i :: Leftmost(s, name, from, i) && r == MatchAt(s, name, i)
  {
    if r.Some? {
      var i: nat :| Leftmost(s, name, next, i) && r == MatchAt(s, name, i);
      forall j | from <= j < i ensures MatchAt(s, name, j).None? {
        if j > from {
          assert next <= j < i;
        }
      }
    }
  }

  /** `re.search` over the whole query, reduced to its group 1. */
  function FindValue(s: string, name: string): Option<string>
  {
    Search(s, name, 0)
  }

  /** v is the group of the leftmost clause of the reference reading. */
  ghost predicate LeftmostClause(s: string, name: string, i: nat, v: string)
  {
    ClauseAt(s, name, i, v) && forall j, w :: 0 <= j < i ==> !ClauseAt(s, name, j, w)
  }

  /** The pattern occurs nowhere in s. */
  ghost predicate NoClause(s: string, name: string)
  {
    forall i, w :: !ClauseAt(s, name, i, w)
  }

  /** A group that `re.search` reports comes from the leftmost clause. */
  lemma FoundClause(s: string, name: string) returns (i: nat)
    requires FindValue(s, name).Some?
    ensures LeftmostClause(s, name, i, FindValue(s, name).value)
  {
    SearchMeaning(s, name, 0);
    i :| Leftmost(s, name, 0, i) && FindValue(s, name) == MatchAt(s, name, i);
    MatchAtSound(s, name, i);
    forall j, w | 0 <= j < i ensures !ClauseAt(s, name, j, w) {
      MatchAtMeaning(s, name, j, w);
    }
  }

  /** When `re.search` reports nothing, the pattern occurs nowhere. */
  lemma NotFound(s: string, name: string)
    requires FindValue(s, name).None?
    ensures NoClause(s, name)
  {
    SearchMeaning(s, name, 0);
    forall i, w ensures !ClauseAt(s, name, i, w) {
      MatchAtMeaning(s, name, i, w);
    }
  }

  /** There is at most one leftmost clause. */
  lemma LeftmostClauseUnique(s: string, name: string, i: nat, v: string, k: nat, w: string)
    requires LeftmostClause(s, name, i, v) && LeftmostClause(s, name, k, w)
    ensures i == k && v == w
  {
    MatchAtComplete(s, name, i, v);
    MatchAtComplete(s, name, k, w);
  }

  /** `re.search` finds nothing exactly when no clause of the reference
      reading occurs, and otherwise exactly the group of the leftmost clause. */
  lemma FindValueMeaning(s: string, name: string, v: string)
    ensures FindValue(s, name).None? <==> NoClause(s, name)
    ensures FindValue(s, name) == Some(v) <==> exists i :: LeftmostClause(s, name, i, v)
  {
    if FindValue(s, name).Some? {
      var i := FoundClause(s, name);
      if k: nat :| LeftmostClause(s, name, k, v) {
        LeftmostClauseUnique(s, name, i, FindValue(s, name).value, k, v);
      }
    } else {
      NotFound(s, name);
    }
  }
}

/**
 * `_parse_jql_to_filters`: the custom-API branch of search_issues reduces a
 * JQL query into at most three filters, one pattern each for project,
 * status and assignee.
 */
module JiraJql {
  import opened Json
  import opened Text
  import opened JqlPattern

  /** `assignee.strip('"\'')`, with the literal `currentuser()` rewritten to `me`. */
  function CleanAssignee(raw: string): string
  {
    var v := StripQuotes(raw);
    if v == "currentuser()" then "me" else v
  }

  /** `_parse_jql_to_filters`: builds the filter dictionary one pattern at a time.
      A filter is present exactly when its pattern occurs, and holds the
      cleaned-up group of the leftmost occurrence. */
  method ParseJqlToFilters(jql: string) returns (filters: map<string, string>)
    ensures filters.Keys <= {"project", "status", "assignee"}
    ensures "project" in filters <==> FindValue(jql, "project").Some?
    ensures "status" in filters <==> FindValue(jql, "status").Some?
    ensures "assignee" in filters <==> FindValue(jql, "assignee").Some?
    ensures "project" in filters ==> filters["project"] == StripQuotes(FindValue(jql, "project").value)
    ensures "status" in filters ==>
      filters["status"] == RemoveChar(StripQuotes(FindValue(jql, "status").value), '"')
    ensures "assignee" in filters ==> filters["assignee"] == CleanAssignee(FindValue(jql, "assignee").value)
  {
    filters := map[];
    var projectMatch := FindValue(jql, "project");
    if projectMatch.Some? {
      filters := filters["project" := StripQuotes(projectMatch.value)];
    }
    var statusMatch := FindValue(jql, "status");
    if statusMatch.Some? {
      filters := filters["status" := RemoveChar(StripQuotes(statusMatch.value), '"')];
    }
    var assigneeMatch := FindValue(jql, "assignee");
    if assigneeMatch.Some? {
      var assignee := StripQuotes(assigneeMatch.value);
      if assignee == "currentuser()" {
        assignee := "me";
      }
      filters := filters["assignee" := assignee];
    }
  }

  /** For every raw group: the cleaned assignee is `me` exactly when the
      stripped value is the lower-case `currentuser()` (or already `me`), and
      any other stripped value, whatever its case, is kept as it is. */
  lemma CleanAssigneeMeaning(raw: string)
    ensures CleanAssignee(raw) == "me" <==> StripQuotes(raw) in {"currentuser()", "me"}
    ensures StripQuotes(raw) != "currentuser()" ==> CleanAssignee(raw) == StripQuotes(raw)
  {
  }

  /** Only the exact lower-case spelling is rewritten: JQL's usual
      `currentUser()` passes through unchanged, while a quoted
      `"currentuser()"` becomes `me`. */
  lemma CurrentUserIsCaseSensitive()
    ensures CleanAssignee("currentUser()") == "currentUser()"
    ensures CleanAssignee("currentuser()") == "me"
    ensures CleanAssignee("\"currentuser()\"") == "me"
  {
    var s := "currentUser()";
    assert QuotePrefix(s, 0) == 0;
    assert QuoteSuffix(s, 0, |s|) == |s|;
    assert s[0..|s|] == s;
    var t := "currentuser()";
    assert QuotePrefix(t, 0) == 0;
    assert QuoteSuffix(t, 0, |t|) == |t|;
    assert t[0..|t|] == t;
    var q := "\"currentuser()\"";
    assert QuotePrefix(q, 1) == 1;
    assert QuotePrefix(q, 0) == 1;
    assert QuoteSuffix(q, 1, |q| - 1) == |q| - 1;
    assert QuoteSuffix(q, 1, |q|) == |q| - 1;
    assert q == "\"" + t + "\"";
    assert q[1..|q| - 1] == t;
  }
}
