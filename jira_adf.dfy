/**
 * Atlassian Document Format (ADF) handling of the Jira client: the
 * one-paragraph documents that create_issue, update_issue and add_comment
 * send, and `_extract_text_from_adf`, which walks a document and joins the
 * text of its text nodes.
 */
module JiraAdf {
  import opened Json
  import opened Text

  /** The values `extract_text` appends to `text_parts` while walking node,
      in the order it appends them. */
  function TextParts(node: Json): seq<Json>
  {
    match node
    case JObj(m) =>
      if Get(m, "type") == JStr("text") then [GetOr(m, "text", JStr(""))]
      else if "content" in m then ContentParts(m["content"])
      else []
    case JArr(items) => ListParts(items)
    case _ => []
  }

  /** What `for child in node['content']` contributes: the elements of a list
      are walked; the keys of an object and the characters of a string are
      scalars and contribute nothing. */
  function ContentParts(content: Json): seq<Json>
  {
    match content
    case JArr(items) => ListParts(items)
    case _ => []
  }

  /** The parts of a list of nodes, walked left to right. */
  function ListParts(items: seq<Json>): seq<Json>
  {
    if items == [] then [] else ListParts(items[..|items| - 1]) + TextParts(items[|items| - 1])
  }

  /** The walk does not crash: every `content` it iterates over is a list, an
      object or a string (iterating over null, a number or a boolean raises). */
  ghost predicate Walkable(node: Json)
  {
    match node
    case JObj(m) =>
      || Get(m, "type") == JStr("text")
      || "content" !in m
      || (match m["content"]
          case JArr(items) => forall i :: 0 <= i < |items| ==> Walkable(items[i])
          case JObj(_) => true
          case JStr(_) => true
          case _ => false)
    case JArr(items) => forall i :: 0 <= i < |items| ==> Walkable(items[i])
    case _ => true
  }

  predicate AllStrings(parts: seq<Json>)
  {
    forall i :: 0 <= i < |parts| ==> parts[i].JStr?
  }

  function Strings(parts: seq<Json>): (r: seq<string>)
    requires AllStrings(parts)
    ensures |r| == |parts| && forall i :: 0 <= i < |parts| ==> parts[i] == JStr(r[i])
  {
    seq(|parts|, i requires 0 <= i < |parts| => parts[i].s)
  }

  /** `_extract_text_from_adf` raises nothing on adf: it is rejected up front,
      or the walk does not crash and every collected part is a string (so that
      `' '.join` accepts them). */
  ghost predicate AdfDefined(adf: Json)
  {
    !Truthy(adf) || !adf.JObj? || (Walkable(adf) && AllStrings(TextParts(adf)))
  }

  /** The text `_extract_text_from_adf` returns. */
  function AdfText(adf: Json): string
    requires AdfDefined(adf)
  {
    if !Truthy(adf) || !adf.JObj? then "" else Join(Strings(TextParts(adf)), " ")
  }

  /** The walk `extract_text(node)`, appending to the list it is given. */
  method ExtractText(node: Json, textParts: seq<Json>) returns (parts: seq<Json>)
    requires Walkable(node)
    ensures parts == textParts + TextParts(node)
    decreases node
  {
    parts := textParts;
    match node {
      case JObj(m) =>
        if Get(m, "type") == JStr("text") {
          parts := parts + [GetOr(m, "text", JStr(""))];
        } else if "content" in m && m["content"].JArr? {
          var items := m["content"].items;
          for i := 0 to |items|
            invariant parts == textParts + ListParts(items[..i])
          {
            parts := ExtractText(items[i], parts);
            assert items[..i + 1][..i] == items[..i];
          }
          assert items[..|items|] == items;
        }
      case JArr(items) =>
        for i := 0 to |items|
          invariant parts == textParts + ListParts(items[..i])
        {
          parts := ExtractText(items[i], parts);
          assert items[..i + 1][..i] == items[..i];
        }
        assert items[..|items|] == items;
      case _ =>
    }
  }

  /** `_extract_text_from_adf`: "" for a falsy or non-object input, otherwise
      the collected text parts joined by single spaces. */
  method ExtractTextFromAdf(adf: Json) returns (text: string)
    requires AdfDefined(adf)
    ensures text == AdfText(adf)
  {
    if !Truthy(adf) || !adf.JObj? {
      return "";
    }
    var parts := ExtractText(adf, []);
    assert parts == TextParts(adf);
    text := Join(Strings(parts), " ");
  }

  /** Walking a list of nodes visits them left to right: the parts of a
      concatenation are the concatenated parts. */
  lemma {:induction false} ListPartsAppend(a: seq<Json>, b: seq<Json>)
    ensures ListParts(a + b) == ListParts(a) + ListParts(b)
    decreases |b|
  {
    if b == [] {
      assert a + b == a;
    } else {
      var b' := b[..|b| - 1];
      assert (a + b)[..|a + b| - 1] == a + b';
      assert (a + b)[|a + b| - 1] == b[|b| - 1];
      ListPartsAppend(a, b');
    }
  }

  /** A text node contributes exactly its `text` (or '' without one): its
      children are never visited. */
  lemma TextNodeIsLeaf(m: map<string, Json>, children: Json)
    requires Get(m, "type") == JStr("text")
    ensures TextParts(JObj(m["content" := children])) == [GetOr(m, "text", JStr(""))]
  {
    var m' := m["content" := children];
    assert Get(m', "type") == JStr("text");
    assert GetOr(m', "text", JStr("")) == GetOr(m, "text", JStr(""));
  }

  /** The one-paragraph ADF document that create_issue, update_issue and
      add_comment build around a text. */
  function ParagraphDoc(text: Json): Json
  {
    JObj(map[
      "type" := JStr("doc"),
      "version" := JInt(1),
      "content" := JArr([JObj(map[
        "type" := JStr("paragraph"),
        "content" := JArr([JObj(map["type" := JStr("text"), "text" := text])])
      ])])
    ])
  }

  /** Round trip: extracting the text of the document built for d gives d back. */
  lemma ParagraphDocRoundTrip(d: string)
    ensures AdfDefined(ParagraphDoc(JStr(d)))
    ensures AdfText(ParagraphDoc(JStr(d))) == d
  {
    var leaf := JObj(map["type" := JStr("text"), "text" := JStr(d)]);
    var para := JObj(map["type" := JStr("paragraph"), "content" := JArr([leaf])]);
    var doc := ParagraphDoc(JStr(d));
    assert TextParts(leaf) == [JStr(d)];
    assert ListParts([leaf]) == ListParts([]) + TextParts(leaf);
    assert TextParts(para) == [JStr(d)];
    assert ListParts([para]) == ListParts([]) + TextParts(para);
    assert TextParts(doc) == [JStr(d)];
    assert Walkable(leaf) && Walkable(para) && Walkable(doc);
    assert Strings(TextParts(doc)) == [d];
  }
}
