/**
 * The response normalisers of the Confluence client, the pure selection and
 * envelope steps of get_page_by_title, get_space and search_content, and the
 * request payloads of create_page and update_page.
 */
module ConfluenceClient {
  import opened Json
  import opened Text
  import opened ConfluenceCql

  /** The `ConfluencePage` dataclass. */
  datatype ConfluencePage = ConfluencePage(
    id: Json, title: Json, content: Json, spaceKey: Json, spaceName: Json,
    status: Json, version: Json, created: Json, updated: Json,
    createdBy: Json, updatedBy: Json, url: Json)

  /** The `ConfluenceSpace` dataclass. */
  datatype ConfluenceSpace = ConfluenceSpace(key: Json, name: Json, description: Json, kind: Json, url: Json)

  /** The `ConfluenceComment` dataclass. */
  datatype ConfluenceComment = ConfluenceComment(id: Json, content: Json, author: Json, created: Json, updated: Json)

  /** The dictionary search_content returns. */
  datatype SearchEnvelope = SearchEnvelope(results: seq<ConfluencePage>, start: Json, limit: Json, size: Json)

  // ----- Standard-API normalisers -----

  /** `_normalize_confluence_page` runs without raising: every nested value it
      calls `.get` on is an object or absent. */
  predicate ConfluencePageDefined(data: map<string, Json>)
  {
    && AbsentOrObject(data, "space") && AbsentOrObject(data, "version")
    && AbsentOrObject(data, "body") && AbsentOrObject(ObjectAt(data, "body"), "storage")
    && AbsentOrObject(data, "history") && AbsentOrObject(ObjectAt(data, "history"), "createdBy")
    && AbsentOrObject(ObjectAt(data, "version"), "by") && AbsentOrObject(data, "_links")
  }

  /** The object reached through the nested keys k1 and k2, `{}` where a key is absent. */
  function Nested(data: map<string, Json>, k1: string, k2: string): map<string, Json>
  {
    ObjectAt(ObjectAt(data, k1), k2)
  }

  /** `_normalize_confluence_page`: presence-based lookups in the nested
      space, version, body.storage and history objects. Only id, title and
      content have a default (''); a key that is present is copied even when
      it is null. */
  function NormalizeConfluencePage(data: map<string, Json>): (r: ConfluencePage)
    requires ConfluencePageDefined(data)
    ensures r.id == (if "id" in data then data["id"] else JStr(""))
    ensures r.title == (if "title" in data then data["title"] else JStr(""))
    ensures var storage := Nested(data, "body", "storage");
      r.content == (if "value" in storage then storage["value"] else JStr(""))
    ensures r.spaceKey == Get(ObjectAt(data, "space"), "key")
    ensures r.spaceName == Get(ObjectAt(data, "space"), "name")
    ensures r.status == Get(data, "status")
    ensures r.version == Get(ObjectAt(data, "version"), "number")
    ensures r.created == Get(ObjectAt(data, "history"), "createdDate")
    ensures r.updated == Get(ObjectAt(data, "version"), "when")
    ensures r.createdBy == Get(Nested(data, "history", "createdBy"), "displayName")
    ensures r.updatedBy == Get(Nested(data, "version", "by"), "displayName")
    ensures r.url == Get(ObjectAt(data, "_links"), "webui")
  {
    var spaceData := ObjectAt(data, "space");
    var versionData := ObjectAt(data, "version");
    var bodyData := Nested(data, "body", "storage");
    var historyData := ObjectAt(data, "history");
    ConfluencePage(GetOr(data, "id", JStr("")), GetOr(data, "title", JStr("")),
                   GetOr(bodyData, "value", JStr("")),
                   Get(spaceData, "key"), Get(spaceData, "name"), Get(data, "status"),
                   Get(versionData, "number"), Get(historyData, "createdDate"), Get(versionData, "when"),
                   Get(ObjectAt(historyData, "createdBy"), "displayName"),
                   Get(ObjectAt(versionData, "by"), "displayName"),
                   Get(ObjectAt(data, "_links"), "webui"))
  }

  /** `_normalize_confluence_space` runs without raising. */
  predicate ConfluenceSpaceDefined(data: map<string, Json>)
  {
    AbsentOrObject(data, "description") && FalsyOrObject(ObjectAt(data, "description"), "plain")
    && AbsentOrObject(data, "_links")
  }

  /** `_normalize_confluence_space`: the description is the value of the
      plain-text description object when that object is non-empty. */
  function NormalizeConfluenceSpace(data: map<string, Json>): (r: ConfluenceSpace)
    requires ConfluenceSpaceDefined(data)
    ensures r.key == (if "key" in data then data["key"] else JStr(""))
    ensures r.name == (if "name" in data then data["name"] else JStr(""))
    ensures var plain := Nested(data, "description", "plain");
      r.description == (if plain != map[] then Get(plain, "value") else JNull)
    ensures r.kind == Get(data, "type")
    ensures r.url == Get(ObjectAt(data, "_links"), "webui")
  {
    var descriptionData := Nested(data, "description", "plain");
    ConfluenceSpace(GetOr(data, "key", JStr("")), GetOr(data, "name", JStr("")),
                    if Truthy(JObj(descriptionData)) then Get(descriptionData, "value") else JNull,
                    Get(data, "type"), Get(ObjectAt(data, "_links"), "webui"))
  }

  /** `_normalize_confluence_comment` runs without raising. */
  predicate ConfluenceCommentDefined(data: map<string, Json>)
  {
    AbsentOrObject(data, "body") && AbsentOrObject(ObjectAt(data, "body"), "storage")
    && AbsentOrObject(data, "version") && AbsentOrObject(ObjectAt(data, "version"), "by")
  }

  /** `_normalize_confluence_comment`: the author's display name defaults to
      'Unknown' and the creation date to '', while the update date has no
      default. */
  function NormalizeConfluenceComment(data: map<string, Json>): (r: ConfluenceComment)
    requires ConfluenceCommentDefined(data)
    ensures r.id == (if "id" in data then data["id"] else JStr(""))
    ensures var storage := Nested(data, "body", "storage");
      r.content == (if "value" in storage then storage["value"] else JStr(""))
    ensures var author := Nested(data, "version", "by");
      r.author == (if "displayName" in author then author["displayName"] else JStr("Unknown"))
    ensures var v := ObjectAt(data, "version");
      && r.created == (if "when" in v then v["when"] else JStr(""))
      && r.updated == Get(v, "when")
  {
    var bodyData := Nested(data, "body", "storage");
    var versionData := ObjectAt(data, "version");
    ConfluenceComment(GetOr(data, "id", JStr("")), GetOr(bodyData, "value", JStr("")),
                      GetOr(ObjectAt(versionData, "by"), "displayName", JStr("Unknown")),
                      GetOr(versionData, "when", JStr("")), Get(versionData, "when"))
  }

  // ----- Custom-API normalisers -----

  /** The value `space or space_key or namespace` of a custom page. */
  function SpaceValue(data: map<string, Json>): Json
  {
    Alias(data, ["space", "space_key", "namespace"], None)
  }

  /** `_normalize_custom_page` runs without raising: a truthy space value that
      is not a string is an object. */
  predicate CustomPageDefined(data: map<string, Json>)
  {
    var space := SpaceValue(data);
    space.JStr? || !Truthy(space) || space.JObj?
  }

  /** `_normalize_custom_page` (the alias chains are CustomPageMeaning). A
      string space value, even '', is both the space key and the space name;
      a non-empty object supplies its `key` and `name`; anything else leaves
      both None. The status is presence-based: 'current' only when the key is
      absent. */
  function NormalizeCustomPage(data: map<string, Json>): (r: ConfluencePage)
    requires CustomPageDefined(data)
    ensures var space := SpaceValue(data);
      && (space.JStr? ==> r.spaceKey == space && r.spaceName == space)
      && (space.JObj? && Truthy(space) ==>
            r.spaceKey == Get(space.fields, "key") && r.spaceName == Get(space.fields, "name"))
      && (!space.JStr? && !Truthy(space) ==> r.spaceKey == JNull && r.spaceName == JNull)
    ensures r.status == (if "status" in data then data["status"] else JStr("current"))
  {
    var space := SpaceValue(data);
    ConfluencePage(
      Alias(data, ["id", "page_id"], Some(JStr(""))),
      Alias(data, ["title", "name"], Some(JStr(""))),
      Alias(data, ["content", "body", "text"], Some(JStr(""))),
      if space.JStr? then space else if Truthy(space) then Get(space.fields, "key") else JNull,
      if space.JStr? then space else if Truthy(space) then Get(space.fields, "name") else JNull,
      GetOr(data, "status", JStr("current")),
      Alias(data, ["version", "revision"], None),
      Alias(data, ["created", "created_at"], None),
      Alias(data, ["updated", "updated_at"], None),
      Alias(data, ["created_by", "author"], None),
      Alias(data, ["updated_by", "author"], None),
      Alias(data, ["url", "link"], None))
  }

  /** The alias chains of a custom page: each field is the first truthy value
      among its aliases, with the default '' for id, title and content; both
      people fall back to `author`. */
  lemma CustomPageMeaning(data: map<string, Json>)
    requires CustomPageDefined(data)
    ensures var r := NormalizeCustomPage(data);
      && PicksAlias(data, ["space", "space_key", "namespace"], None, SpaceValue(data))
      && PicksAlias(data, ["id", "page_id"], Some(JStr("")), r.id)
      && PicksAlias(data, ["title", "name"], Some(JStr("")), r.title)
      && PicksAlias(data, ["content", "body", "text"], Some(JStr("")), r.content)
      && PicksAlias(data, ["version", "revision"], None, r.version)
      && PicksAlias(data, ["created", "created_at"], None, r.created)
      && PicksAlias(data, ["updated", "updated_at"], None, r.updated)
      && PicksAlias(data, ["created_by", "author"], None, r.createdBy)
      && PicksAlias(data, ["updated_by", "author"], None, r.updatedBy)
      && PicksAlias(data, ["url", "link"], None, r.url)
  {
    AliasMeaning(data, ["space", "space_key", "namespace"], None);
    AliasMeaning(data, ["id", "page_id"], Some(JStr("")));
    AliasMeaning(data, ["title", "name"], Some(JStr("")));
    AliasMeaning(data, ["content", "body", "text"], Some(JStr("")));
    AliasMeaning(data, ["version", "revision"], None);
    AliasMeaning(data, ["created", "created_at"], None);
    AliasMeaning(data, ["updated", "updated_at"], None);
    AliasMeaning(data, ["created_by", "author"], None);
    AliasMeaning(data, ["updated_by", "author"], None);
    AliasMeaning(data, ["url", "link"], None);
  }

  /** Version 0 is falsy, so the page falls back to its revision. */
  lemma VersionZeroFallsThrough(data: map<string, Json>)
    requires CustomPageDefined(data) && "version" in data && data["version"] == JInt(0)
    ensures NormalizeCustomPage(data).version == Get(data, "revision")
  {
    if TruthyAt(data, "revision") {
      AliasAt(data, ["version", "revision"], None, 1);
    } else {
      AliasFallback(data, ["version", "revision"], None);
    }
  }

  /** An empty-string namespace, with no truthy space or space_key before
      it, gives '' (not None) as space key and name: the string test comes
      before the truthiness test. */
  lemma EmptyNamespaceIsKept(data: map<string, Json>)
    requires !TruthyAt(data, "space") && !TruthyAt(data, "space_key")
    requires "namespace" in data && data["namespace"] == JStr("")
    ensures CustomPageDefined(data)
    ensures NormalizeCustomPage(data).spaceKey == JStr("") && NormalizeCustomPage(data).spaceName == JStr("")
  {
    AliasFallback(data, ["space", "space_key", "namespace"], None);
  }

  /** `_normalize_custom_space` (the alias chains are CustomSpaceMeaning):
      the type is presence-based, 'global' only when absent. */
  function NormalizeCustomSpace(data: map<string, Json>): (r: ConfluenceSpace)
    ensures r.kind == (if "type" in data then data["type"] else JStr("global"))
    ensures r.description == Get(data, "description")
  {
    ConfluenceSpace(Alias(data, ["key", "id", "code"], Some(JStr(""))),
                    Alias(data, ["name", "title"], Some(JStr(""))),
                    Get(data, "description"),
                    GetOr(data, "type", JStr("global")),
                    Alias(data, ["url", "link"], None))
  }

  /** Key, name and URL of a custom space are the first truthy alias. */
  lemma CustomSpaceMeaning(data: map<string, Json>)
    ensures var r := NormalizeCustomSpace(data);
      && PicksAlias(data, ["key", "id", "code"], Some(JStr("")), r.key)
      && PicksAlias(data, ["name", "title"], Some(JStr("")), r.name)
      && PicksAlias(data, ["url", "link"], None, r.url)
  {
    AliasMeaning(data, ["key", "id", "code"], Some(JStr("")));
    AliasMeaning(data, ["name", "title"], Some(JStr("")));
    AliasMeaning(data, ["url", "link"], None);
  }

  /** `_normalize_custom_comment` (the alias chains are CustomCommentMeaning). */
  function NormalizeCustomComment(data: map<string, Json>): ConfluenceComment
  {
    ConfluenceComment(Alias(data, ["id", "comment_id"], Some(JStr(""))),
                      Alias(data, ["comment", "body", "content"], Some(JStr(""))),
                      Alias(data, ["author", "user", "created_by"], Some(JStr("Unknown"))),
                      Alias(data, ["created", "created_at"], Some(JStr(""))),
                      Alias(data, ["updated", "updated_at"], None))
  }

  /** Each field of a custom comment is the first truthy alias, with the
      defaults '' and 'Unknown'. */
  lemma CustomCommentMeaning(data: map<string, Json>)
    ensures var r := NormalizeCustomComment(data);
      && PicksAlias(data, ["id", "comment_id"], Some(JStr("")), r.id)
      && PicksAlias(data, ["comment", "body", "content"], Some(JStr("")), r.content)
      && PicksAlias(data, ["author", "user", "created_by"], Some(JStr("Unknown")), r.author)
      && PicksAlias(data, ["created", "created_at"], Some(JStr("")), r.created)
      && PicksAlias(data, ["updated", "updated_at"], None, r.updated)
  {
    AliasMeaning(data, ["id", "comment_id"], Some(JStr("")));
    AliasMeaning(data, ["comment", "body", "content"], Some(JStr("")));
    AliasMeaning(data, ["author", "user", "created_by"], Some(JStr("Unknown")));
    AliasMeaning(data, ["created", "created_at"], Some(JStr("")));
    AliasMeaning(data, ["updated", "updated_at"], None);
  }

  // ----- get_page_by_title -----

  /** `page.get('title') or page.get('name', '')`: the second lookup is
      presence-based, so a present null name is kept. */
  function PageTitle(page: map<string, Json>): Json
  {
    if TruthyAt(page, "title") then page["title"] else GetOr(page, "name", JStr(""))
  }

  /** The page's title, lower-cased, equals the lower-cased requested title. */
  predicate TitleMatches(page: map<string, Json>, title: string)
  {
    PageTitle(page).JStr? && LowerStr(PageTitle(page).s) == LowerStr(title)
  }

  /** The scan of get_page_by_title does not raise: every page it reaches
      has a string title, and the page it returns can be normalised. */
  predicate ScanDefined(pages: seq<map<string, Json>>, title: string)
  {
    forall i :: 0 <= i < |pages| && (forall j :: 0 <= j < i ==> !TitleMatches(pages[j], title)) ==>
      PageTitle(pages[i]).JStr? && (TitleMatches(pages[i], title) ==> CustomPageDefined(pages[i]))
  }

  /** The list of a custom search response: the first of `pages`, `data` and
      `results` that is present, else []. */
  function PageList(data: map<string, Json>): Json
  {
    FirstPresent(data, ["pages", "data", "results"], JArr([]))
  }

  /** get_page_by_title against the custom API: the first page whose title
      matches without regard to case, normalised, or None when none does. */
  method GetPageByTitleCustom(pages: seq<map<string, Json>>, title: string) returns (r: Option<ConfluencePage>)
    requires ScanDefined(pages, title)
    ensures r.None? <==> forall i :: 0 <= i < |pages| ==> !TitleMatches(pages[i], title)
    ensures r.Some? ==> exists i :: (&& 0 <= i < |pages| && TitleMatches(pages[i], title)
                                     && (forall j :: 0 <= j < i ==> !TitleMatches(pages[j], title))
                                     && CustomPageDefined(pages[i]) && r.value == NormalizeCustomPage(pages[i]))
  {
    for i := 0 to |pages|
      invariant forall j :: 0 <= j < i ==> !TitleMatches(pages[j], title)
    {
      var pageTitle := LowerStr(PageTitle(pages[i]).s);
      if pageTitle == LowerStr(title) {
        return Some(NormalizeCustomPage(pages[i]));
      }
    }
    return None;
  }

  /** get_page_by_title against the standard API: `data.get('results', [])`
      is None when it is falsy (absent, an empty list, or a present null),
      otherwise the first result normalised. */
  function GetPageByTitleStandard(data: map<string, Json>): (r: Option<ConfluencePage>)
    requires var l := GetOr(data, "results", JArr([]));
      Truthy(l) ==> l.JArr? && l.items != [] && l.items[0].JObj? && ConfluencePageDefined(l.items[0].fields)
    ensures var l := GetOr(data, "results", JArr([]));
      && (r.None? <==> !Truthy(l))
      && ("results" !in data || data["results"] == JNull ==> r.None?)
      && (r.Some? ==> r.value == NormalizeConfluencePage(l.items[0].fields))
  {
    var results := GetOr(data, "results", JArr([]));
    if Truthy(results) then Some(NormalizeConfluencePage(results.items[0].fields)) else None
  }

  // ----- get_space -----

  /** A space is the one asked for when its key or its name is that string. */
  predicate SpaceMatches(space: ConfluenceSpace, spaceKey: string)
  {
    space.key == JStr(spaceKey) || space.name == JStr(spaceKey)
  }

  /** The message of the ValueError get_space raises. */
  function SpaceNotFound(spaceKey: string): string
  {
    "Space " + spaceKey + " not found"
  }

  /** get_space against the custom API: the first listed space whose key or
      name matches, or the "not found" error when there is none. */
  method GetSpaceCustom(spaces: seq<ConfluenceSpace>, spaceKey: string) returns (r: Result<ConfluenceSpace>)
    ensures r.Err? <==> forall i :: 0 <= i < |spaces| ==> !SpaceMatches(spaces[i], spaceKey)
    ensures r.Err? ==> r.msg == SpaceNotFound(spaceKey)
    ensures r.Ok? ==> exists i :: (&& 0 <= i < |spaces| && SpaceMatches(spaces[i], spaceKey)
                                   && (forall j :: 0 <= j < i ==> !SpaceMatches(spaces[j], spaceKey))
                                   && r.value == spaces[i])
  {
    for i := 0 to |spaces|
      invariant forall j :: 0 <= j < i ==> !SpaceMatches(spaces[j], spaceKey)
    {
      if spaces[i].key == JStr(spaceKey) || spaces[i].name == JStr(spaceKey) {
        return Ok(spaces[i]);
      }
    }
    return Err(SpaceNotFound(spaceKey));
  }

  /** The spaces get_spaces returns against the custom API: the list under
      `spaces`, else under `data`, each normalised. */
  function CustomSpaces(data: map<string, Json>): (r: seq<ConfluenceSpace>)
    requires var l := FirstPresent(data, ["spaces", "data"], JArr([]));
      ListLike(l) && forall i :: 0 <= i < |Items(l)| ==> Items(l)[i].JObj?
    ensures var items := Items(FirstPresent(data, ["spaces", "data"], JArr([])));
      |r| == |items| && forall i :: 0 <= i < |items| ==> r[i] == NormalizeCustomSpace(items[i].fields)
  {
    var items := Items(FirstPresent(data, ["spaces", "data"], JArr([])));
    seq(|items|, i requires 0 <= i < |items| => NormalizeCustomSpace(items[i].fields))
  }

  /** The child pages get_page_children returns against the custom API: the
      list under `children`, else under `data`, each normalised. */
  function CustomChildren(data: map<string, Json>): (r: seq<ConfluencePage>)
    requires var l := FirstPresent(data, ["children", "data"], JArr([]));
      ListLike(l) && forall i :: 0 <= i < |Items(l)| ==> Items(l)[i].JObj? && CustomPageDefined(Items(l)[i].fields)
    ensures var items := Items(FirstPresent(data, ["children", "data"], JArr([])));
      |r| == |items| && forall i :: 0 <= i < |items| ==> r[i] == NormalizeCustomPage(items[i].fields)
  {
    var items := Items(FirstPresent(data, ["children", "data"], JArr([])));
    seq(|items|, i requires 0 <= i < |items| => NormalizeCustomPage(items[i].fields))
  }

  /** The comments get_comments returns against the custom API: the list
      under `comments`, else under `data`, each normalised. */
  function CustomComments(data: map<string, Json>): (r: seq<ConfluenceComment>)
    requires var l := FirstPresent(data, ["comments", "data"], JArr([]));
      ListLike(l) && forall i :: 0 <= i < |Items(l)| ==> Items(l)[i].JObj?
    ensures var items := Items(FirstPresent(data, ["comments", "data"], JArr([])));
      |r| == |items| && forall i :: 0 <= i < |items| ==> r[i] == NormalizeCustomComment(items[i].fields)
  {
    var items := Items(FirstPresent(data, ["comments", "data"], JArr([])));
    seq(|items|, i requires 0 <= i < |items| => NormalizeCustomComment(items[i].fields))
  }

  // ----- search_content -----

  /** The custom search response can be normalised: its list is a list of
      normalisable page objects, or an empty dict or string, which Python
      iterates as nothing. */
  predicate CustomPagesDefined(l: Json)
  {
    ListLike(l) && forall i :: 0 <= i < |Items(l)| ==> Items(l)[i].JObj? && CustomPageDefined(Items(l)[i].fields)
  }

  /** The query parameters search_content sends to the custom API: the CQL
      reduced to plain terms, the page size and the offset. */
  function CustomSearchParams(query: string, maxResults: int, startAt: int): (p: map<string, Json>)
    ensures p.Keys == {"q", "limit", "offset"}
    ensures p["q"].JStr? && Split(p["q"].s) == LongTerms(Split(StripFields(StripBooleans(query))))
    ensures SingleSpaced(p["q"].s)
    ensures p["limit"] == JInt(maxResults) && p["offset"] == JInt(startAt)
  {
    map["q" := JStr(ParseCqlToSimpleQuery(query)), "limit" := JInt(maxResults), "offset" := JInt(startAt)]
  }

  /** The envelope search_content builds from a custom response: the pages
      normalised in order, their number as the size, and the paging
      arguments echoed. */
  function CustomSearchEnvelope(data: map<string, Json>, maxResults: int, startAt: int): (r: SearchEnvelope)
    requires CustomPagesDefined(PageList(data))
    ensures var items := Items(PageList(data));
      && |r.results| == |items|
      && forall i :: 0 <= i < |items| ==> r.results[i] == NormalizeCustomPage(items[i].fields)
    ensures r.size == JInt(|r.results|)
    ensures r.start == JInt(startAt) && r.limit == JInt(maxResults)
  {
    var items := Items(PageList(data));
    SearchEnvelope(seq(|items|, i requires 0 <= i < |items| => NormalizeCustomPage(items[i].fields)),
                   JInt(startAt), JInt(maxResults), JInt(|items|))
  }

  /** An empty string under `pages` is iterated as nothing: no results and a
      size of 0. */
  lemma EmptyStringPagesAreNone(data: map<string, Json>, maxResults: int, startAt: int)
    requires "pages" in data && data["pages"] == JStr("")
    ensures CustomPagesDefined(PageList(data))
    ensures var r := CustomSearchEnvelope(data, maxResults, startAt);
      r.results == [] && r.size == JInt(0)
  {
  }

  /** The standard response can be normalised: `results` is absent, a list
      of normalisable page objects, or an empty dict or string. */
  predicate StandardPagesDefined(data: map<string, Json>)
  {
    var l := GetOr(data, "results", JArr([]));
    ListLike(l) && forall i :: 0 <= i < |Items(l)| ==> Items(l)[i].JObj? && ConfluencePageDefined(Items(l)[i].fields)
  }

  /** The envelope search_content builds from a standard response: the
      results normalised in order, and start, limit and size taken from the
      response when present; unlike the custom envelope, a missing size is
      0, not the number of results. */
  function StandardSearchEnvelope(data: map<string, Json>, maxResults: int, startAt: int): (r: SearchEnvelope)
    requires StandardPagesDefined(data)
    ensures var items := Items(GetOr(data, "results", JArr([])));
      && |r.results| == |items|
      && forall i :: 0 <= i < |items| ==> r.results[i] == NormalizeConfluencePage(items[i].fields)
    ensures r.start == (if "start" in data then data["start"] else JInt(startAt))
    ensures r.limit == (if "limit" in data then data["limit"] else JInt(maxResults))
    ensures r.size == (if "size" in data then data["size"] else JInt(0))
  {
    var items := Items(GetOr(data, "results", JArr([])));
    SearchEnvelope(seq(|items|, i requires 0 <= i < |items| => NormalizeConfluencePage(items[i].fields)),
                   GetOr(data, "start", JInt(startAt)), GetOr(data, "limit", JInt(maxResults)),
                   GetOr(data, "size", JInt(0)))
  }

  // ----- create_page and update_page -----

  /** The `body` object of a standard request: the content in storage format. */
  function StorageBody(content: string): Json
  {
    JObj(map["storage" := JObj(map["value" := JStr(content), "representation" := JStr("storage")])])
  }

  /** p is a custom-API create_page request: title, content and space key,
      plus the parent id exactly when one is given (truthy). */
  predicate IsCustomCreatePage(spaceKey: string, title: string, content: string, parent: Json, p: map<string, Json>)
  {
    && p.Keys == {"title", "content", "space"} + (if Truthy(parent) then {"parent_id"} else {})
    && p["title"] == JStr(title) && p["content"] == JStr(content) && p["space"] == JStr(spaceKey)
    && (Truthy(parent) ==> p["parent_id"] == parent)
  }

  /** create_page against the custom API: the parent id is added only when given. */
  method CreatePagePayloadCustom(spaceKey: string, title: string, content: string, parent: Json)
    returns (payload: map<string, Json>)
    ensures IsCustomCreatePage(spaceKey, title, content, parent, payload)
  {
    payload := map["title" := JStr(title), "content" := JStr(content), "space" := JStr(spaceKey)];
    if Truthy(parent) {
      payload := payload["parent_id" := parent];
    }
  }

  /** p is a standard-API create_page request: a page with the title, a
      space reference, the content in storage format, and the parent as its
      only ancestor exactly when one is given. */
  predicate IsStandardCreatePage(spaceKey: string, title: string, content: string, parent: Json, p: map<string, Json>)
  {
    && p.Keys == {"type", "title", "space", "body"} + (if Truthy(parent) then {"ancestors"} else {})
    && p["type"] == JStr("page") && p["title"] == JStr(title)
    && p["space"] == JObj(map["key" := JStr(spaceKey)]) && p["body"] == StorageBody(content)
    && (Truthy(parent) ==> p["ancestors"] == JArr([JObj(map["id" := parent])]))
  }

  /** create_page against the standard API. */
  method CreatePagePayloadStandard(spaceKey: string, title: string, content: string, parent: Json)
    returns (payload: map<string, Json>)
    ensures IsStandardCreatePage(spaceKey, title, content, parent, payload)
  {
    payload := map["type" := JStr("page"), "title" := JStr(title),
                   "space" := JObj(map["key" := JStr(spaceKey)]), "body" := StorageBody(content)];
    if Truthy(parent) {
      payload := payload["ancestors" := JArr([JObj(map["id" := parent])])];
    }
  }

  /** A page echoing a standard create request normalises back to its
      title, content and space key. */
  lemma StandardCreatedPageRoundTrip(spaceKey: string, title: string, content: string, parent: Json, p: map<string, Json>)
    requires IsStandardCreatePage(spaceKey, title, content, parent, p)
    ensures ConfluencePageDefined(p)
    ensures var r := NormalizeConfluencePage(p);
      r.title == JStr(title) && r.content == JStr(content) && r.spaceKey == JStr(spaceKey)
  {
    assert Nested(p, "body", "storage") == map["value" := JStr(content), "representation" := JStr("storage")];
  }

  /** A page echoing a custom create request normalises back to its title
      and content, and a non-empty space key becomes both space key and
      space name. */
  lemma CustomCreatedPageRoundTrip(spaceKey: string, title: string, content: string, parent: Json, p: map<string, Json>)
    requires IsCustomCreatePage(spaceKey, title, content, parent, p)
    ensures CustomPageDefined(p)
    ensures var r := NormalizeCustomPage(p);
      && r.title == JStr(title) && r.content == JStr(content)
      && (spaceKey != "" ==> r.spaceKey == JStr(spaceKey) && r.spaceName == JStr(spaceKey))
  {
    if spaceKey != "" {
      AliasAt(p, ["space", "space_key", "namespace"], None, 0);
    } else {
      AliasFallback(p, ["space", "space_key", "namespace"], None);
    }
    if title != "" {
      AliasAt(p, ["title", "name"], Some(JStr("")), 0);
    } else {
      AliasFallback(p, ["title", "name"], Some(JStr("")));
    }
    if content != "" {
      AliasAt(p, ["content", "body", "text"], Some(JStr("")), 0);
    } else {
      AliasFallback(p, ["content", "body", "text"], Some(JStr("")));
    }
  }

  /** p is a custom-API update_page request: title, content and the next
      version number. */
  predicate IsCustomUpdatePage(title: string, content: string, version: int, p: map<string, Json>)
  {
    && p.Keys == {"title", "content", "version"}
    && p["title"] == JStr(title) && p["content"] == JStr(content) && p["version"] == JInt(version + 1)
  }

  /** The dictionary literal of the custom-API update_page request. */
  function CustomUpdatePagePayload(title: string, content: string, version: int): (p: map<string, Json>)
    ensures IsCustomUpdatePage(title, content, version, p)
  {
    map["title" := JStr(title), "content" := JStr(content), "version" := JInt(version + 1)]
  }

  /** p is a standard-API update_page request: the next version number, the
      title, and the content in storage format. */
  predicate IsStandardUpdatePage(title: string, content: string, version: int, p: map<string, Json>)
  {
    && p.Keys == {"version", "title", "type", "body"}
    && p["version"] == JObj(map["number" := JInt(version + 1)])
    && p["title"] == JStr(title) && p["type"] == JStr("page") && p["body"] == StorageBody(content)
  }

  /** The dictionary literal of the standard-API update_page request. */
  function StandardUpdatePagePayload(title: string, content: string, version: int): (p: map<string, Json>)
    ensures IsStandardUpdatePage(title, content, version, p)
  {
    map["version" := JObj(map["number" := JInt(version + 1)]), "title" := JStr(title),
        "type" := JStr("page"), "body" := StorageBody(content)]
  }

  /** A page echoing a standard update normalises back to its title, its
      content and the incremented version. */
  lemma StandardUpdatedPageRoundTrip(title: string, content: string, version: int, p: map<string, Json>)
    requires IsStandardUpdatePage(title, content, version, p)
    ensures ConfluencePageDefined(p)
    ensures var r := NormalizeConfluencePage(p);
      r.title == JStr(title) && r.content == JStr(content) && r.version == JInt(version + 1)
  {
    assert Nested(p, "body", "storage") == map["value" := JStr(content), "representation" := JStr("storage")];
    assert ObjectAt(p, "version") == map["number" := JInt(version + 1)];
  }

  /** A page echoing a custom update normalises back to its title, its
      content and the incremented version, except that a version of -1
      becomes 0, which is falsy and reads back as None. */
  lemma CustomUpdatedPageRoundTrip(title: string, content: string, version: int, p: map<string, Json>)
    requires IsCustomUpdatePage(title, content, version, p)
    ensures CustomPageDefined(p)
    ensures var r := NormalizeCustomPage(p);
      && r.title == JStr(title) && r.content == JStr(content)
      && r.version == (if version == -1 then JNull else JInt(version + 1))
  {
    AliasFallback(p, ["space", "space_key", "namespace"], None);
    if title != "" {
      AliasAt(p, ["title", "name"], Some(JStr("")), 0);
    } else {
      AliasFallback(p, ["title", "name"], Some(JStr("")));
    }
    if content != "" {
      AliasAt(p, ["content", "body", "text"], Some(JStr("")), 0);
    } else {
      AliasFallback(p, ["content", "body", "text"], Some(JStr("")));
    }
    if version != -1 {
      AliasAt(p, ["version", "revision"], None, 0);
    } else {
      AliasFallback(p, ["version", "revision"], None);
    }
  }
}
