# MCP Jira and Confluence adapters: a verified model of the translation layer

Two small MCP servers expose Jira and Confluence to a language-model client.
Each talks either to the vendor's standard REST API or to a "custom API"
with loosely shaped JSON. This model covers the layer between the wire and
the tools, which is deterministic:

- the **normalisers**. They turn a parsed response into a fixed-shape record
  (issue, comment, project, transition, page, space, search result). A field
  takes the first usable value from an ordered list of alias keys, or a
  default.
- the **query translators**. JQL is reduced to `project`/`status`/`assignee`
  filters. CQL is reduced to plain search terms.
- the **Atlassian Document Format** text extraction, and the one-paragraph
  documents the Jira client builds.
- the **pure steps inside the HTTP methods**:
  - request payloads;
  - first-match selection over a fetched list (`get_page_by_title`, `get_space`);
  - search-result envelopes.
- the **configuration checklist**:
  - the boolean-string validators;
  - the settings `Config()` assembles;
  - the required-variable check of `Config.validate`, with the process
    environment as a `map<string, string>`.

Every JSON response is a `Json` value (null, bool, int, string, array,
object-as-map). Two lookup styles are kept apart:

- `d.get(k, default)` is presence-based (`GetOr`, `FirstPresent`): an explicit
  null under `k` is kept.
- `d.get(a) or d.get(b) or ...` is truthiness-based (`Or`, `Alias`): every
  falsy value is skipped, namely None, False, 0, '', [] and {}.

What an alias chain means is stated once, as `Json.PicksAlias`. Every custom
normaliser is then proved to pick, field by field, what that predicate says.

Layout, one module per file:

| file | module | models |
|---|---|---|
| json.dfy | Json | JSON values, truthiness, both lookup styles |
| text.dfy | Text | `str.isspace`, ASCII lower-casing, `split`/`join`, quote stripping, `str(int)` |
| settings.dfy | Settings | what both `config.py` files share: flag validator, `CustomAPIConfig`, missing-variable filter |
| jira_adf.dfy | JiraAdf | `_extract_text_from_adf` and the paragraph documents |
| jira_jql.dfy | JqlPattern, JiraJql | the `name\s*=\s*(\S+)` scanner and `_parse_jql_to_filters` |
| jira_client.dfy | JiraClient | Jira records, normalisers, `_get_user_name`, payloads, envelopes |
| confluence_cql.dfy | ConfluenceCql | `_parse_cql_to_simple_query` |
| confluence_client.dfy | ConfluenceClient | Confluence records, normalisers, selection steps, payloads, envelopes |
| jira_config.dfy | JiraConfig | Jira `Config()` and `Config.validate` |
| confluence_config.dfy | ConfluenceConfig | Confluence `Config()` and `Config.validate` |

The form follows the source:

- Expression chains are functions.
- `extract_text`, `get_page_by_title`, `get_space`, the incrementally filled
  payload dicts and `validate` are methods, proved against specification
  functions or predicates.
- `_parse_jql_to_filters` is also a method.

Python crash paths are preconditions, named `...Defined`. Examples are `.get`
on a null nested value, iterating over a null list, and `' '.join` of a
non-string.

In `_parse_jql_to_filters` the stripped assignee is compared with the
lower-case literal `'currentuser()'`. Only that exact spelling, bare or
quoted, becomes `me`; JQL's usual `currentUser()` passes through unchanged
(`JiraJql.CleanAssigneeMeaning`, `JiraJql.CurrentUserIsCaseSensitive`).

## Model

| member | source | states |
|---|---|---|
| Json.OrMeaning | mcp-jira-python/mcp_jira_server/client.py:331-343 | `v1 or ... or vn` is the first truthy operand, or the last operand when none is truthy |
| Json.AliasMeaning | mcp-jira-python/mcp_jira_server/client.py:328-344 | an alias chain yields the value of the first alias key present with a truthy value; otherwise the default, or without a default whatever `d.get` gives for the last alias |
| Json.AliasAt | mcp-confluence-python/mcp_confluence_server/client.py:355-366 | when alias i is the first truthy one, the chain yields exactly its value |
| Json.AliasFallback | mcp-confluence-python/mcp_confluence_server/client.py:355-366 | when no alias is truthy, the chain yields the default, or without one the last alias's `get` |
| Json.PicksAliasUnique | mcp-jira-python/mcp_jira_server/client.py:328-344 | the alias reading determines a single value, so the normalisers' field values are fully determined by it |
| Json.FirstPresentMeaning | mcp-jira-python/mcp_jira_server/client.py:408 | nested `d.get(k1, d.get(k2, ... default))` yields the value of the first present key, even a null, else the default |
| Text.LowerStr | mcp-confluence-python/mcp_confluence_server/client.py:98-99 | `.lower()` keeps the length and lower-cases every character (ASCII) |
| Text.Split | mcp-confluence-python/mcp_confluence_server/client.py:421 | `str.split()` yields non-empty tokens without whitespace |
| Text.SplitEmpty | mcp-confluence-python/mcp_confluence_server/client.py:421 | `str.split()` yields no token at all iff the text is all whitespace (or empty) |
| Text.SplitAtSpace | mcp-confluence-python/mcp_confluence_server/client.py:421 | splitting at a whitespace character gives the tokens before it, in order, then the tokens after it |
| Text.SplitJoin | mcp-confluence-python/mcp_confluence_server/client.py:421-422 | splitting the single-space join of tokens gives the same tokens back |
| Text.JoinSingleSpaced | mcp-confluence-python/mcp_confluence_server/client.py:422 | `' '.join` of tokens has no leading, trailing or doubled whitespace, and is empty iff there are no tokens |
| Text.StripQuotes | mcp-jira-python/mcp_jira_server/client.py:423 | `.strip('"\'')` yields a slice of the input with only quotes cut from either end, and neither end of the result is a quote |
| Text.RemoveChar | mcp-jira-python/mcp_jira_server/client.py:428 | `.replace('"', '')` leaves no `"` and introduces no character |
| Text.IntToString | mcp-jira-python/mcp_jira_server/client.py:469 | `str(int)` is non-empty and starts with '-' iff the number is negative |
| Settings.ValidateFlag | mcp-jira-python/mcp_jira_server/config.py:39-49 | a string becomes true iff its lower-case form is 'true'; any other value passes through unchanged (the Confluence validators at mcp-confluence-python/mcp_confluence_server/config.py lines 39-49 are the same) |
| Settings.FlagSpellings | mcp-jira-python/mcp_jira_server/config.py:42 | a string is accepted as true iff it spells t-r-u-e in any mix of case |
| Settings.FlagFromEnv | mcp-jira-python/mcp_jira_server/config.py:36-49 | a flag variable that is present is validated; an absent one takes the field's default |
| Settings.Lookup | mcp-jira-python/mcp_jira_server/config.py:14-16 | an optional setting is the variable's value when the variable is in the environment and None otherwise, so it is a non-empty string iff `os.getenv` of it is truthy |
| Settings.CustomApiFromEnv | mcp-jira-python/mcp_jira_server/config.py:22-29 | the custom settings are the CUSTOM_API_ variables, with version defaulting to 'v1' (the Confluence class at mcp-confluence-python/mcp_confluence_server/config.py lines 22-29 is the same) |
| Settings.MissingVars | mcp-jira-python/mcp_jira_server/config.py:83 | the missing list holds exactly the required variables that are unset or empty, never more entries than were required |
| Settings.MissingVarsAppend | mcp-confluence-python/mcp_confluence_server/config.py:89 | the filter keeps required order: filtering a concatenation concatenates the filtered parts |
| JiraAdf.ExtractText | mcp-jira-python/mcp_jira_server/client.py:447-456 | the walk appends the text parts of the node, depth-first left to right, to the list it is given |
| JiraAdf.ExtractTextFromAdf | mcp-jira-python/mcp_jira_server/client.py:440-459 | a falsy or non-object input gives ""; otherwise the text of every text node, in walk order, joined by single spaces (the specification `AdfText`) |
| JiraAdf.ListPartsAppend | mcp-jira-python/mcp_jira_server/client.py:454-456 | a list of nodes is walked left to right: the parts of a concatenation are the concatenated parts |
| JiraAdf.TextNodeIsLeaf | mcp-jira-python/mcp_jira_server/client.py:449-450 | a text node contributes its `text` (or '') and its children are never visited |
| JiraAdf.ParagraphDocRoundTrip | mcp-jira-python/mcp_jira_server/client.py:153-160 | the one-paragraph document built around a text d is walkable and extracts back to exactly d |
| JqlPattern.MatchAtMeaning | mcp-jira-python/mcp_jira_server/client.py:421 | the scanner matches at i with value v iff the name appears at i in any case, followed by optional whitespace, `=`, optional whitespace and the maximal non-empty run of non-whitespace v |
| JqlPattern.SearchMeaning | mcp-jira-python/mcp_jira_server/client.py:421 | the search from a position returns the match at the leftmost matching position, or nothing when no position matches |
| JqlPattern.FindValueMeaning | mcp-jira-python/mcp_jira_server/client.py:426 | `re.search` finds nothing iff no clause occurs anywhere, and finds v iff the leftmost clause has value v |
| JiraJql.ParseJqlToFilters | mcp-jira-python/mcp_jira_server/client.py:416-438 | the keys are among project, status, assignee; each is present iff its clause occurs; values are the first clause's value with quotes stripped, with every `"` also removed for status, and with `currentuser()` mapped to `me` for assignee |
| JiraJql.CleanAssigneeMeaning | mcp-jira-python/mcp_jira_server/client.py:433-435 | for every group, the assignee becomes `me` iff the stripped value is `currentuser()` (or already `me`); every other stripped value is kept, whatever its case |
| JiraJql.CurrentUserIsCaseSensitive | mcp-jira-python/mcp_jira_server/client.py:433-436 | only the lower-case `currentuser()`, quoted or not, becomes `me`; `currentUser()` passes through unchanged |
| JiraClient.MakeIssue | mcp-jira-python/mcp_jira_server/client.py:27-29 | constructing an issue replaces labels None by [] and keeps every other field |
| JiraClient.NameIfTruthy | mcp-jira-python/mcp_jira_server/client.py:318-322 | `f.get(k, {}).get(name) if f.get(k) else None`: None for a falsy value, else the named member of the object |
| JiraClient.NormalizeJiraIssue | mcp-jira-python/mcp_jira_server/client.py:302-326 | id, key and summary are presence-based with default ''; an object description is replaced by its ADF text; status, type and project come from nested objects; assignee, reporter and priority are None when falsy; labels are the present non-null value, else [] |
| JiraClient.GetUserName | mcp-jira-python/mcp_jira_server/client.py:461-469 | falsy gives None, a string is returned unchanged, an object yields name, then displayName, then email, an int its decimal text, True the text 'True' |
| JiraClient.NormalizeCustomIssue | mcp-jira-python/mcp_jira_server/client.py:343 | the labels of a custom issue are never None |
| JiraClient.CustomIssueMeaning | mcp-jira-python/mcp_jira_server/client.py:328-344 | every custom issue field takes its first truthy alias in source order. Defaults are '' for id/key/summary, 'Task' for type and [] for labels. assignee and reporter go through `_get_user_name`, and priority is a plain `get` |
| JiraClient.NormalizeJiraComment | mcp-jira-python/mcp_jira_server/client.py:346-358 | id and created are presence-based with default ''; the author's displayName defaults to 'Unknown'; an object body becomes its ADF text, and an absent or falsy body becomes '' |
| JiraClient.CustomCommentMeaning | mcp-jira-python/mcp_jira_server/client.py:360-368 | every custom comment field takes its first truthy alias, with defaults '', 'Unknown', '', '' and None |
| JiraClient.NormalizeJiraProject | mcp-jira-python/mcp_jira_server/client.py:370-378 | id, key and name are presence-based with default ''; the lead is the lead object's displayName, or None when falsy |
| JiraClient.CustomProjectMeaning | mcp-jira-python/mcp_jira_server/client.py:380-388 | id, key and name take their first truthy alias; the lead is `_get_user_name` of lead or owner |
| JiraClient.NormalizeJiraTransition | mcp-jira-python/mcp_jira_server/client.py:390-396 | id and name are presence-based with default ''; to_status is the `to` object's name, default '' |
| JiraClient.CustomTransitionMeaning | mcp-jira-python/mcp_jira_server/client.py:398-404 | name falls back name, status, to_status; to_status falls back to_status, target_status, name; both default to '' |
| JiraClient.NameOnlyTransition | mcp-jira-python/mcp_jira_server/client.py:402-403 | when only `name` is truthy, both name and to_status equal it |
| JiraClient.NormalizeCustomSearchResult | mcp-jira-python/mcp_jira_server/client.py:406-414 | the issues are the first present value among issues/data/results (a list, or an empty dict or string, which yields none), normalised in order; total is `total` when present, else the issue count; maxResults and startAt are echoed |
| JiraClient.IssuesKeyWins | mcp-jira-python/mcp_jira_server/client.py:408 | a present empty `issues` list wins over `data` and `results` |
| JiraClient.EmptyObjectIssuesAreNone | mcp-jira-python/mcp_jira_server/client.py:408-414 | an empty dict under `issues` is iterated as nothing: no issues and, without `total`, a total of 0 |
| JiraClient.CustomComments | mcp-jira-python/mcp_jira_server/client.py:249-250 | the custom comments are the list under `comments`, else `data`, else none, each normalised, in order; an empty dict or string there yields none |
| JiraClient.CustomProjects | mcp-jira-python/mcp_jira_server/client.py:265-266 | the custom projects are the list under `projects`, else `data`, else none, each normalised, in order; an empty dict or string there yields none |
| JiraClient.CustomTransitions | mcp-jira-python/mcp_jira_server/client.py:280-281 | the custom transitions are the list under `transitions`, else `data`, else none, each normalised, in order; an empty dict or string there yields none |
| JiraClient.NullListingIsRejected | mcp-jira-python/mcp_jira_server/client.py:249 | a present null under the listing key is kept by the lookup and is not a list |
| JiraClient.CreateIssuePayload | mcp-jira-python/mcp_jira_server/client.py:143-167 | the payload is `{'fields': f}`. f holds the project key, the summary and the issue type (default 'Task'). description, priority, assignee and labels are added exactly when their argument is truthy: ADF for description, `{'name': v}` for priority and assignee |
| JiraClient.UpdateIssuePayload | mcp-jira-python/mcp_jira_server/client.py:194-214 | the payload is `{'fields': f}`, where f holds exactly the truthy arguments among summary, description (as ADF), assignee, priority (as `{'name': v}`) and labels |
| JiraClient.CreatedIssueRoundTrip | mcp-jira-python/mcp_jira_server/client.py:144-167 | normalising the created fields gives back summary, project, type, description (or None), priority (or None) and labels (or []). The assignee does not come back: it is sent as `name` and read as `displayName` |
| JiraClient.CommentRoundTrip | mcp-jira-python/mcp_jira_server/client.py:228-237 | a comment sent as a one-paragraph document is read back by `_normalize_jira_comment` as exactly its text |
| JiraClient.CustomCreatePayload | mcp-jira-python/mcp_jira_server/client.py:130-138 | the custom create payload has project and title, description defaulting to '', lower-cased type defaulting to 'task', priority and assignee as given, labels defaulting to [] |
| JiraClient.CustomUpdateIssuePayload | mcp-jira-python/mcp_jira_server/client.py:178-188 | the custom update payload holds exactly the truthy arguments, with summary sent as title |
| JiraClient.CustomUpdatedSummary | mcp-jira-python/mcp_jira_server/client.py:179-180 | an updated summary sent as title is read back as the summary by `_normalize_custom_issue` |
| JiraClient.CustomCreatedType | mcp-jira-python/mcp_jira_server/client.py:134 | the type read back is the lower-cased issue type, and 'Task' when that is empty |
| JiraClient.CustomCreatedDescription | mcp-jira-python/mcp_jira_server/client.py:133 | the description read back is the truthy description argument, else None |
| JiraClient.CustomCreatedIssueRoundTrip | mcp-jira-python/mcp_jira_server/client.py:130-138 | reading the custom create payload back gives the summary (an empty one through the '' default), the project key (an empty one as None, since the alias chain skips it), the lower-cased type or 'Task', the description if truthy (else None), and the labels if truthy (else []) |
| ConfluenceCql.BooleanWordAt | mcp-confluence-python/mcp_confluence_server/client.py:417 | a keyword is found at i iff `and`, `or` or `not` stands there, in any case, between word boundaries |
| ConfluenceCql.StripBooleansUntouched | mcp-confluence-python/mcp_confluence_server/client.py:417 | text with no whole-word keyword passes the first substitution unchanged |
| ConfluenceCql.KeywordAfterWordCharIsKept | mcp-confluence-python/mcp_confluence_server/client.py:417 | for every text, no keyword is matched right after a word character |
| ConfluenceCql.KeywordNeedsBoundaries | mcp-confluence-python/mcp_confluence_server/client.py:417 | `AND` alone becomes a space, while `band` is kept |
| ConfluenceCql.FieldNameLength | mcp-confluence-python/mcp_confluence_server/client.py:418 | a field name (space, type, title, text in any case) is found at i iff one stands there, and its length is then determined |
| ConfluenceCql.ValueEnd | mcp-confluence-python/mcp_confluence_server/client.py:418 | the captured value runs up to the next quote or the end of the string |
| ConfluenceCql.FieldClauseAt | mcp-confluence-python/mcp_confluence_server/client.py:418 | a found clause has a non-empty value ending at a quote or the end, and the match also consumes that closing quote |
| ConfluenceCql.FieldClauseSound | mcp-confluence-python/mcp_confluence_server/client.py:418 | every clause the scanner finds is a match of the pattern (which of several matches the engine picks is stated by `FieldClauseAt`, `QuotedClauseReplaced` and `UnquotedValueRunsToEnd`) |
| ConfluenceCql.FieldClauseComplete | mcp-confluence-python/mcp_confluence_server/client.py:418 | wherever the pattern matches, the scanner finds a clause |
| ConfluenceCql.QuotedClauseReplaced | mcp-confluence-python/mcp_confluence_server/client.py:418 | `field = "v"` is replaced by v, and the rewrite continues after the closing quote |
| ConfluenceCql.UnquotedValueRunsToEnd | mcp-confluence-python/mcp_confluence_server/client.py:418 | an unquoted value with no later quote runs to the end of the string |
| ConfluenceCql.LongTerms | mcp-confluence-python/mcp_confluence_server/client.py:421 | exactly the terms longer than 2 characters are kept |
| ConfluenceCql.LongTermsOne | mcp-confluence-python/mcp_confluence_server/client.py:421 | a single term is kept exactly when it is longer than 2 characters |
| ConfluenceCql.LongTermsAppend | mcp-confluence-python/mcp_confluence_server/client.py:421 | the filter keeps order and multiplicity: the long terms of a concatenation are those of each part, in order |
| ConfluenceCql.LongTermsAreTokens | mcp-confluence-python/mcp_confluence_server/client.py:421 | the kept terms are still whitespace-free tokens |
| ConfluenceCql.ParseCqlToSimpleQuery | mcp-confluence-python/mcp_confluence_server/client.py:414-422 | the result splits into exactly the long terms of the rewritten query, in order. Every term is longer than 2 characters, and terms are single-spaced without leading or trailing whitespace |
| ConfluenceClient.NormalizeConfluencePage | mcp-confluence-python/mcp_confluence_server/client.py:328-348 | id, title and content are presence-based with default ''; space, version, history and links members are read from their nested objects, and a present null stays null |
| ConfluenceClient.NormalizeConfluenceSpace | mcp-confluence-python/mcp_confluence_server/client.py:369-379 | key and name are presence-based with default ''; the description is the plain value when the plain entry is a non-empty object, else None; a null, empty or otherwise falsy plain entry gives None |
| ConfluenceClient.NormalizeConfluenceComment | mcp-confluence-python/mcp_confluence_server/client.py:391-402 | content defaults to '', the author's displayName to 'Unknown', and created to ''; updated is the version's `when` or None |
| ConfluenceClient.NormalizeCustomPage | mcp-confluence-python/mcp_confluence_server/client.py:350-360 | the space value is the first truthy of space, space_key and namespace. A string sets both space key and name, an object supplies its key and name, and otherwise both are None. status is 'current' only when absent |
| ConfluenceClient.CustomPageMeaning | mcp-confluence-python/mcp_confluence_server/client.py:350-367 | every custom page field takes its first truthy alias in source order, with '' defaults for id, title and content |
| ConfluenceClient.VersionZeroFallsThrough | mcp-confluence-python/mcp_confluence_server/client.py:361 | a version of 0 falls through to revision |
| ConfluenceClient.EmptyNamespaceIsKept | mcp-confluence-python/mcp_confluence_server/client.py:358-359 | an empty-string namespace as the last alias gives '' as space key and name, not None |
| ConfluenceClient.NormalizeCustomSpace | mcp-confluence-python/mcp_confluence_server/client.py:386-387 | type is 'global' only when absent; description is a plain `get` |
| ConfluenceClient.CustomSpaceMeaning | mcp-confluence-python/mcp_confluence_server/client.py:381-389 | key, name and url take their first truthy alias, with '' defaults for key and name |
| ConfluenceClient.CustomCommentMeaning | mcp-confluence-python/mcp_confluence_server/client.py:404-412 | every custom comment field takes its first truthy alias, with defaults '', '', 'Unknown', '' and None |
| ConfluenceClient.GetPageByTitleCustom | mcp-confluence-python/mcp_confluence_server/client.py:97-101 | the result is None iff no page's `(title or get('name', ''))` lower-cased equals the lower-cased title; otherwise it is the first matching page, normalised |
| ConfluenceClient.GetPageByTitleStandard | mcp-confluence-python/mcp_confluence_server/client.py:112-113 | `data.get('results', [])` decides: None iff it is falsy (absent, empty, or a present null), else its first element normalised |
| ConfluenceClient.GetSpaceCustom | mcp-confluence-python/mcp_confluence_server/client.py:252-256 | an error iff no space's key or name equals the argument, with the message "Space k not found"; otherwise the first matching space |
| ConfluenceClient.CustomSpaces | mcp-confluence-python/mcp_confluence_server/client.py:239-240 | the custom spaces are the list under `spaces`, else `data`, else none, each normalised, in order; an empty dict or string there yields none |
| ConfluenceClient.CustomChildren | mcp-confluence-python/mcp_confluence_server/client.py:272-273 | the custom child pages are the list under `children`, else `data`, else none, each normalised, in order; an empty dict or string there yields none |
| ConfluenceClient.CustomComments | mcp-confluence-python/mcp_confluence_server/client.py:313-314 | the custom comments are the list under `comments`, else `data`, else none, each normalised, in order; an empty dict or string there yields none |
| ConfluenceClient.CustomSearchParams | mcp-confluence-python/mcp_confluence_server/client.py:121-123 | the query sent is the translated CQL: its terms are the long terms of the rewritten query, single blanks between them and none at either end, with limit and offset as given |
| ConfluenceClient.CustomSearchEnvelope | mcp-confluence-python/mcp_confluence_server/client.py:127-133 | results are the pages normalised in order (an empty dict or string under the key yields none); size is their count; start and limit echo the arguments |
| ConfluenceClient.EmptyStringPagesAreNone | mcp-confluence-python/mcp_confluence_server/client.py:127-132 | an empty string under `pages` is iterated as nothing: no results and size 0 |
| ConfluenceClient.StandardSearchEnvelope | mcp-confluence-python/mcp_confluence_server/client.py:144-150 | results are the normalised `results` (an empty dict or string yields none); start, limit and size are presence-based, with size defaulting to 0 |
| ConfluenceClient.CreatePagePayloadCustom | mcp-confluence-python/mcp_confluence_server/client.py:156-162 | the payload has title, content and space, plus parent_id exactly when the parent is truthy |
| ConfluenceClient.CreatePagePayloadStandard | mcp-confluence-python/mcp_confluence_server/client.py:169-181 | the payload is a page with title, space key and storage body, plus ancestors exactly when the parent is truthy |
| ConfluenceClient.StandardCreatedPageRoundTrip | mcp-confluence-python/mcp_confluence_server/client.py:169-179 | normalising the standard create payload gives back title, content and space key |
| ConfluenceClient.CustomCreatedPageRoundTrip | mcp-confluence-python/mcp_confluence_server/client.py:156-160 | normalising the custom create payload gives back title and content, and the space as both key and name when non-empty |
| ConfluenceClient.CustomUpdatePagePayload | mcp-confluence-python/mcp_confluence_server/client.py:191-195 | the custom update payload sends title, content and version + 1 |
| ConfluenceClient.StandardUpdatePagePayload | mcp-confluence-python/mcp_confluence_server/client.py:201-213 | the standard update payload sends version number version + 1, the title and the storage body |
| ConfluenceClient.StandardUpdatedPageRoundTrip | mcp-confluence-python/mcp_confluence_server/client.py:201-213 | normalising the standard update payload gives back title, content and version + 1 |
| ConfluenceClient.CustomUpdatedPageRoundTrip | mcp-confluence-python/mcp_confluence_server/client.py:191-195 | normalising the custom update payload gives back title and content. The version is version + 1, except that a sent 0 (version -1) falls through to None |
| JiraConfig.ServerFromEnv | mcp-jira-python/mcp_jira_server/config.py:32-37 | both flags default to False when their variable is absent |
| JiraConfig.StandardJira | mcp-jira-python/mcp_jira_server/config.py:11-19 | the Jira settings are the values of the JIRA_ variables, None for an absent optional one, and each optional one is a non-empty string iff its variable is set |
| JiraConfig.CompatJira | mcp-jira-python/mcp_jira_server/config.py:61-68 | in custom mode the Jira base URL is the custom base URL, the API token is the custom key, the user is 'custom-api-user', and the access token, not passed, is still read from JIRA_ACCESS_TOKEN |
| JiraConfig.LoadConfig | mcp-jira-python/mcp_jira_server/config.py:58-70 | custom mode builds the custom settings and the stand-in Jira settings; standard mode reads the Jira settings |
| JiraConfig.RequiredVars | mcp-jira-python/mcp_jira_server/config.py:74-81 | custom mode requires exactly CUSTOM_API_BASE_URL, CUSTOM_API_KEY. Standard mode requires JIRA_BASE_URL plus JIRA_ACCESS_TOKEN (bearer), or plus JIRA_USERNAME, JIRA_API_TOKEN (basic) |
| JiraConfig.Validate | mcp-jira-python/mcp_jira_server/config.py:72-93 | fails with "Missing required environment variables: " and the missing names joined by ", " iff some are missing. Otherwise it fails with the bearer or basic message iff standard mode lacks the credentials it needs, and succeeds iff neither applies |
| JiraConfig.AuthChecksUnreachable | mcp-jira-python/mcp_jira_server/config.py:88-93 | for the configuration `Config()` loads, the authentication checks never fire once no variable is missing, so validate passes iff nothing is missing |
| JiraConfig.MissingInRequiredOrder | mcp-jira-python/mcp_jira_server/config.py:83-86 | standard mode reports the missing base URL first, then the missing credentials in required order |
| ConfluenceConfig.ServerFromEnv | mcp-confluence-python/mcp_confluence_server/config.py:32-37 | custom mode defaults to off, and bearer authentication defaults to on |
| ConfluenceConfig.StandardConfluence | mcp-confluence-python/mcp_confluence_server/config.py:11-19 | the Confluence settings are the values of the CONFLUENCE_ variables, None for an absent optional one, and each optional one is a non-empty string iff its variable is set |
| ConfluenceConfig.CompatConfluence | mcp-confluence-python/mcp_confluence_server/config.py:61-69 | in custom mode the access token and the API token both equal the custom key, and the user is 'custom-api-user' |
| ConfluenceConfig.LoadConfig | mcp-confluence-python/mcp_confluence_server/config.py:58-71 | custom mode builds the custom settings and the stand-in Confluence settings; standard mode reads the Confluence settings |
| ConfluenceConfig.RequiredVars | mcp-confluence-python/mcp_confluence_server/config.py:75-87 | custom mode requires exactly CUSTOM_API_BASE_URL, CUSTOM_API_KEY; standard mode always starts with CONFLUENCE_BASE_URL |
| ConfluenceConfig.Validate | mcp-confluence-python/mcp_confluence_server/config.py:73-92 | fails iff some required variable is missing, with "Missing required environment variables: " and the missing names joined by ", " |
| ConfluenceConfig.BearerMissing | mcp-confluence-python/mcp_confluence_server/config.py:81-89 | in bearer mode CONFLUENCE_ACCESS_TOKEN is reported missing iff it is unset or empty, and the conditional append gives the same list as always requiring it |
| ConfluenceConfig.BasicMissing | mcp-confluence-python/mcp_confluence_server/config.py:84-89 | in basic mode the conditional extend gives the same list as always requiring both credentials, namely the unset ones among base URL, user name and API token, in that order |

## Left out

- HTTP plumbing: `requests.Session`, authentication headers, URL building,
  `raise_for_status`, timeouts, and the `RequestException` swallowing of the
  Confluence custom `get_comments` and `get_page_children`. These are network I/O. Only the steps
  that run on an already-parsed response are modelled; the response is a
  parameter.
- Neither the Jira nor the Confluence `server.py` is part of this model. They
  hold MCP tool registration and dispatch over an async library.
- pydantic's `BaseSettings`, `load_dotenv` and `os.getenv` are foreign
  libraries. The environment is an explicit `map<string, string>`, and:
  - variable names are matched exactly, although `BaseSettings` matches them
    case-insensitively;
  - `log_level` and `max_results_default` are not modelled, because they are
    only coerced by pydantic;
  - pydantic's refusal to build a settings class without a required field is
    the precondition `Loadable`.
- Text.LowerStr: lower-cases ASCII letters only. For the comparison with
  'true' this is exact. No other character lower-cases to one of t, r, u, e.
  For `get_page_by_title` titles with non-ASCII letters it differs from
  Python's `.lower()`.
- The regular expressions are hand-written scanners for the exact patterns
  used, not a general regex engine:
  - `\b` treats only ASCII letters, digits and '_' as word characters, where
    Python's Unicode `\w` also counts other letters and digits;
  - `\s` is Python's `str.isspace` set.
- Python crash paths are preconditions (`JiraIssueDefined`,
  `CustomPageDefined`, `AdfDefined`, ...), not modelled exceptions.
- JiraClient.GetUserName: `str(user_data)` is modelled for integers and
  True. A truthy list is excluded by precondition, and JSON floats are not
  modelled.
- Text.IntToString: its contract states only non-emptiness and the sign. The
  digits are given by its definition, not by an ensures.
- Text.RemoveChar: its contract states only that no `"` remains and that no
  character is introduced. That the other characters keep their order is
  given by its definition.
- JiraClient.CreatedIssueRoundTrip: stands in for the server. It feeds the
  created `fields` straight to `_normalize_jira_issue`, where the real client
  re-reads the issue with `get_issue`. A real server may rewrite fields.
- The standard branches of `search_issues` (mcp-jira-python/mcp_jira_server/client.py:109-124),
  of the Jira `get_comments` and `get_transitions`, and of the Confluence
  `get_spaces`, `get_comments` and `get_page_children` are not modelled. Each
  applies a modelled normaliser to every element of a presence-based `get`
  of the response; `search_issues` adds presence-based paging fields.
- The standard branch of the Jira `get_projects`
  (mcp-jira-python/mcp_jira_server/client.py:271) is not modelled. It applies
  `_normalize_jira_project` to every element of the response itself.
- The payloads of `transition_issue` and of the Confluence `add_comment`
  carry their arguments without any logic, and are not modelled.
  `delete_page` sends no payload.
- JSON object key order is not modelled; nothing in the adapters depends on
  it.
